/** The clinic: the registry of patients by DNI, doctors by licence number,
    one clinical history per patient, and the list of every appointment. It
    is the only way records are created, and it enforces unique keys, the
    not-found errors and the rule that a doctor's slot (date and time text)
    cannot be booked while an appointment that is not cancelled holds it. */
module Clinicas {
  import opened Errores
  import opened Especialidades
  import opened Pacientes
  import opened Medicos
  import opened Turnos
  import opened Recetas
  import opened Historias

  predicate SinRepetidos(s: seq<string>) {
    forall i, j :: 0 <= i < j < |s| ==> s[i] != s[j]
  }

  /** A list without repetitions has as many elements as its set. */
  lemma {:induction false} CardinalSinRepetidos(s: seq<string>)
    requires SinRepetidos(s)
    ensures |(set x | x in s)| == |s|
  {
    if s != [] {
      var u := s[..|s| - 1];
      assert SinRepetidos(u);
      CardinalSinRepetidos(u);
      assert (set x | x in s) == (set x | x in u) + {s[|s| - 1]};
      assert s[|s| - 1] !in (set x | x in u);
    }
  }

  /** The order of a registry: its keys in the order they were added,
      each once. */
  ghost predicate Registro<T>(m: map<string, T>, orden: seq<string>) {
    SinRepetidos(orden) && forall k :: k in orden <==> k in m
  }

  /** Adding a new key at the end keeps the order a registry order. */
  lemma RegistroTrasAlta<T>(m: map<string, T>, orden: seq<string>, k: string, v: T)
    requires Registro(m, orden) && k !in m
    ensures Registro(m[k := v], orden + [k])
  {
    var o := orden + [k];
    forall i, j | 0 <= i < j < |o| ensures o[i] != o[j] {
      if j == |orden| {
        assert o[i] == orden[i];
      }
    }
  }

  ghost predicate PorDni(ps: map<string, Paciente>) {
    forall dni :: dni in ps ==> ps[dni].dni == dni
  }

  ghost predicate PorMatricula(ms: map<string, Medico>) {
    forall mat :: mat in ms ==> ms[mat].matricula == mat
  }

  /** One history per patient, owned by that patient. */
  ghost predicate Duenos(ps: map<string, Paciente>, hs: map<string, HistoriaClinica>) {
    hs.Keys == ps.Keys && forall dni :: dni in hs ==> hs[dni].paciente == ps[dni]
  }

  /** Every appointment is with a registered patient and with the
      registered doctor object itself. */
  ghost predicate TurnosConocidos(ts: seq<Turno>, ps: map<string, Paciente>, ms: map<string, Medico>) {
    forall i :: 0 <= i < |ts| ==>
      && ts[i].paciente.dni in ps && ps[ts[i].paciente.dni] == ts[i].paciente
      && ts[i].medico.matricula in ms && ms[ts[i].medico.matricula] == ts[i].medico
  }

  /** A new patient with a new history keeps every history with its owner. */
  lemma DuenosTrasAlta(ps: map<string, Paciente>, hs: map<string, HistoriaClinica>, p: Paciente, h: HistoriaClinica)
    requires Duenos(ps, hs) && h.paciente == p
    ensures Duenos(ps[p.dni := p], hs[p.dni := h])
  {
  }

  /** Registering a patient or a doctor under a new key keeps every
      appointment on record with a registered patient and doctor. */
  lemma TurnosTrasAltaPaciente(ts: seq<Turno>, ps: map<string, Paciente>, ms: map<string, Medico>, p: Paciente)
    requires TurnosConocidos(ts, ps, ms) && p.dni !in ps
    ensures TurnosConocidos(ts, ps[p.dni := p], ms)
  {
  }

  lemma TurnosTrasAltaMedico(ts: seq<Turno>, ps: map<string, Paciente>, ms: map<string, Medico>, m: Medico)
    requires TurnosConocidos(ts, ps, ms) && m.matricula !in ms
    ensures TurnosConocidos(ts, ps, ms[m.matricula := m])
  {
  }

  /** An appointment with a registered patient and doctor may be added. */
  lemma TurnosTrasAgenda(ts: seq<Turno>, ps: map<string, Paciente>, ms: map<string, Medico>, t: Turno)
    requires TurnosConocidos(ts, ps, ms)
    requires t.paciente.dni in ps && ps[t.paciente.dni] == t.paciente
    requires t.medico.matricula in ms && ms[t.medico.matricula] == t.medico
    ensures TurnosConocidos(ts + [t], ps, ms)
  {
  }

  /** The appointment holds the slot: same licence, same date text, same time
      text, and it is not cancelled. The patient and the specialty play no part. */
  predicate Bloquea(t: Turno, matricula: string, fecha: string, hora: string): (b: bool)
    reads t
    ensures t.estado == Cancelado ==> !b
    ensures b ==> t.medico.matricula == matricula
  {
    t.medico.matricula == matricula && t.fecha == fecha && t.hora == hora && t.estado != Cancelado
  }

  predicate SlotOcupado(ts: seq<Turno>, matricula: string, fecha: string, hora: string): (b: bool)
    reads ts
    ensures (forall i :: 0 <= i < |ts| ==> ts[i].estado == Cancelado) ==> !b
  {
    exists i :: 0 <= i < |ts| && Bloquea(ts[i], matricula, fecha, hora)
  }

  /** A cancelled appointment does not hold its slot: adding one to a list
      that leaves a slot free leaves it free, and adding one that is not
      cancelled to the list takes its own slot. */
  lemma SlotTrasAgregar(ts: seq<Turno>, t: Turno, matricula: string, fecha: string, hora: string)
    ensures SlotOcupado(ts + [t], matricula, fecha, hora)
            <==> SlotOcupado(ts, matricula, fecha, hora) || Bloquea(t, matricula, fecha, hora)
  {
    var u := ts + [t];
    if SlotOcupado(ts, matricula, fecha, hora) {
      var i :| 0 <= i < |ts| && Bloquea(ts[i], matricula, fecha, hora);
      assert u[i] == ts[i];
    }
    if SlotOcupado(u, matricula, fecha, hora) {
      var i :| 0 <= i < |u| && Bloquea(u[i], matricula, fecha, hora);
      if i < |ts| {
        assert u[i] == ts[i];
      }
    }
    assert u[|ts|] == t;
  }

  /** The scan of agendar_turno over the stored appointments. */
  method BuscarConflicto(ts: seq<Turno>, matricula: string, fecha: string, hora: string) returns (ocupado: bool)
    ensures ocupado <==> exists i :: 0 <= i < |ts| && Bloquea(ts[i], matricula, fecha, hora)
  {
    for i := 0 to |ts|
      invariant forall j :: 0 <= j < i ==> !Bloquea(ts[j], matricula, fecha, hora)
    {
      var t := ts[i];
      if t.medico.matricula == matricula && t.fecha == fecha && t.hora == hora && t.estado != Cancelado {
        return true;
      }
    }
    return false;
  }

  class Clinica {
    var pacientes: map<string, Paciente>
    var medicos: map<string, Medico>
    var historias: map<string, HistoriaClinica>
    var turnos: seq<Turno>
    /** The order in which the DNIs and the licence numbers were registered,
        which is the order the program's dictionaries list them in. */
    var ordenPacientes: seq<string>
    var ordenMedicos: seq<string>

    /** The invariant the clinic keeps: its own registries and records, and
        the invariant of every history and every doctor it holds. */
    ghost predicate Valid()
      reads this, historias.Values, medicos.Values
    {
      Estructura() && HistoriasValidas() && MedicosValidos()
    }

    /** The registries, one history per patient owned by that patient, and
        every appointment on record with a registered patient and doctor. */
    ghost predicate Estructura()
      reads this
    {
      && Registro(pacientes, ordenPacientes) && PorDni(pacientes)
      && Registro(medicos, ordenMedicos) && PorMatricula(medicos)
      && Duenos(pacientes, historias)
      && TurnosConocidos(turnos, pacientes, medicos)
    }

    /** Every history the clinic holds keeps its own invariant. */
    ghost predicate HistoriasValidas()
      reads this, historias.Values
    {
      forall d :: d in historias ==> historias[d].Valid()
    }

    /** Every doctor the clinic holds keeps its own invariant. */
    ghost predicate MedicosValidos()
      reads this, medicos.Values
    {
      forall m :: m in medicos ==> medicos[m].Valid()
    }

    constructor ()
      ensures Valid()
      ensures pacientes == map[] && medicos == map[] && historias == map[] && turnos == []
    {
      pacientes, medicos, historias, turnos := map[], map[], map[], [];
      ordenPacientes, ordenMedicos := [], [];
    }

    /** registrar_paciente: a DNI already registered is refused before the
        patient is built. A new patient comes with an empty history of its
        own; nothing else changes. */
    method RegistrarPaciente(nombre: string, dni: string, fechaNacimiento: string) returns (r: Result<Paciente>)
      requires Valid()
      modifies this
      ensures Valid()
      ensures dni in old(pacientes) ==> r == Err(DatosInvalidos(DniDuplicado))
      ensures dni !in old(pacientes) ==> r == NuevoPaciente(nombre, dni, fechaNacimiento)
      ensures r.Ok? ==>
                && pacientes == old(pacientes)[dni := r.value]
                && dni in historias && historias == old(historias)[dni := historias[dni]]
                && fresh(historias[dni]) && historias[dni].paciente == r.value
                && historias[dni].turnos == [] && historias[dni].recetas == []
                && ordenPacientes == old(ordenPacientes) + [dni]
      ensures r.Err? ==> pacientes == old(pacientes) && historias == old(historias)
                         && ordenPacientes == old(ordenPacientes)
      ensures medicos == old(medicos) && ordenMedicos == old(ordenMedicos) && turnos == old(turnos)
    {
      if dni in pacientes {
        return Err(DatosInvalidos(DniDuplicado));
      }
      r := NuevoPaciente(nombre, dni, fechaNacimiento);
      if r.Err? {
        return;
      }
      var h := new HistoriaClinica(r.value);
      Alta(r.value, h);
    }

    /** Stores a new patient with an empty history of its own. */
    method Alta(p: Paciente, h: HistoriaClinica)
      requires Valid() && p.dni !in pacientes
      requires h.paciente == p && h.turnos == [] && h.recetas == []
      modifies this
      ensures Valid()
      ensures pacientes == old(pacientes)[p.dni := p] && ordenPacientes == old(ordenPacientes) + [p.dni]
      ensures historias == old(historias)[p.dni := h]
      ensures medicos == old(medicos) && ordenMedicos == old(ordenMedicos) && turnos == old(turnos)
    {
      var dni := p.dni;
      RegistroTrasAlta(pacientes, ordenPacientes, dni, p);
      DuenosTrasAlta(pacientes, historias, p, h);
      TurnosTrasAltaPaciente(turnos, pacientes, medicos, p);
      pacientes, historias, ordenPacientes := pacientes[dni := p], historias[dni := h], ordenPacientes + [dni];
    }

    /** registrar_medico: a licence number already registered is refused
        before the doctor is built; nothing else changes. */
    method RegistrarMedico(nombre: string, matricula: string) returns (r: Result<Medico>)
      requires Valid()
      modifies this
      ensures Valid()
      ensures matricula in old(medicos) ==> r == Err(DatosInvalidos(MatriculaDuplicada))
      ensures matricula !in old(medicos) ==>
                if ValidarMedico(nombre, matricula) == Pass then r.Ok?
                else r == Err(ValidarMedico(nombre, matricula).error)
      ensures r.Ok? ==>
                && fresh(r.value) && r.value.nombre == nombre && r.value.matricula == matricula
                && r.value.agenda == map[]
                && medicos == old(medicos)[matricula := r.value]
                && ordenMedicos == old(ordenMedicos) + [matricula]
      ensures r.Err? ==> medicos == old(medicos) && ordenMedicos == old(ordenMedicos)
      ensures pacientes == old(pacientes) && historias == old(historias)
      ensures ordenPacientes == old(ordenPacientes) && turnos == old(turnos)
    {
      if matricula in medicos {
        return Err(DatosInvalidos(MatriculaDuplicada));
      }
      r := NuevoMedico(nombre, matricula);
      if r.Err? {
        return;
      }
      RegistroTrasAlta(medicos, ordenMedicos, matricula, r.value);
      TurnosTrasAltaMedico(turnos, pacientes, medicos, r.value);
      medicos := medicos[matricula := r.value];
      ordenMedicos := ordenMedicos + [matricula];
    }

    /** agregar_especialidad_a_medico: an unknown licence number is reported
        before the specialty is validated; then the specialty is built and
        added to that doctor's agenda. No other doctor changes. */
    method AgregarEspecialidadAMedico(matricula: string, tipo: string, dias: seq<string>)
      returns (r: Result<Especialidad>)
      requires Valid()
      modifies (if matricula in medicos then {medicos[matricula]} else {})`agenda
      ensures Valid()
      ensures matricula !in medicos ==> r == Err(MedicoNoEncontrado)
      ensures matricula in medicos ==> r == EspecialidadDe(tipo, dias)
      ensures forall m :: m in medicos ==>
                if m == matricula && r.Ok? then AgendaTrasAgregar(old(medicos[m].agenda), medicos[m].agenda, r.value)
                else medicos[m].agenda == old(medicos[m].agenda)
    {
      if matricula !in medicos {
        return Err(MedicoNoEncontrado);
      }
      r := NuevaEspecialidad(tipo, dias);
      if r.Err? {
        return;
      }
      medicos[matricula].AgregarEspecialidad(r.value);
    }

    /** agendar_turno: unknown patient, then unknown doctor, then a taken slot
        are reported in that order, all before the appointment is built; then
        the appointment's own checks apply. A new appointment is appended to
        the clinic's list and to that patient's history, and to nothing else. */
    method AgendarTurno(dni: string, matricula: string, fecha: string, hora: string, especialidad: string)
      returns (r: Result<Turno>)
      requires Valid()
      modifies this`turnos, (if dni in historias then {historias[dni]} else {})`turnos
      ensures Valid()
      ensures dni !in pacientes ==> r == Err(PacienteNoEncontrado)
      ensures dni in pacientes && matricula !in medicos ==> r == Err(MedicoNoEncontrado)
      ensures dni in pacientes && matricula in medicos && old(SlotOcupado(turnos, matricula, fecha, hora)) ==>
                r == Err(TurnoOcupado)
      ensures dni in pacientes && matricula in medicos && !old(SlotOcupado(turnos, matricula, fecha, hora)) ==>
                var v := ValidarTurno(medicos[matricula].agenda, fecha, hora, especialidad);
                if v == Pass then r.Ok? else r == Err(v.error)
      ensures r.Ok? ==>
                && fresh(r.value) && Nuevo(r.value, pacientes[dni], medicos[matricula], fecha, hora, especialidad)
                && turnos == old(turnos) + [r.value]
                && historias[dni].turnos == old(historias[dni].turnos) + [r.value]
      ensures r.Err? ==> turnos == old(turnos)
      ensures dni in historias && r.Err? ==> historias[dni].turnos == old(historias[dni].turnos)
      ensures dni in historias ==> historias[dni].recetas == old(historias[dni].recetas)
      ensures forall d :: d in historias && d != dni ==> historias[d].turnos == old(historias[d].turnos)
    {
      var c := Admitir(dni, matricula, fecha, hora);
      if c.Fail? {
        return Err(c.error);
      }
      r := Reservar(dni, matricula, fecha, hora, especialidad);
    }

    /** Builds the appointment for a registered patient and doctor and, when
        its checks pass, records it. */
    method Reservar(dni: string, matricula: string, fecha: string, hora: string, especialidad: string)
      returns (r: Result<Turno>)
      requires Valid() && dni in pacientes && matricula in medicos
      modifies this`turnos, {historias[dni]}`turnos
      ensures Valid()
      ensures var v := ValidarTurno(medicos[matricula].agenda, fecha, hora, especialidad);
              if v == Pass then r.Ok? else r == Err(v.error)
      ensures r.Ok? ==>
                && fresh(r.value) && Nuevo(r.value, pacientes[dni], medicos[matricula], fecha, hora, especialidad)
                && turnos == old(turnos) + [r.value]
                && historias[dni].turnos == old(historias[dni].turnos) + [r.value]
      ensures r.Err? ==> turnos == old(turnos) && historias[dni].turnos == old(historias[dni].turnos)
      ensures historias[dni].recetas == old(historias[dni].recetas)
      ensures forall d :: d in historias && d != dni ==> historias[d].turnos == old(historias[d].turnos)
    {
      r := NuevoTurno(pacientes[dni], medicos[matricula], fecha, hora, especialidad);
      if r.Err? {
        return;
      }
      Anotar(r.value, historias[dni]);
    }

    /** The checks agendar_turno makes before it builds the appointment. */
    method Admitir(dni: string, matricula: string, fecha: string, hora: string) returns (c: Outcome)
      ensures dni !in pacientes ==> c == Fail(PacienteNoEncontrado)
      ensures dni in pacientes && matricula !in medicos ==> c == Fail(MedicoNoEncontrado)
      ensures dni in pacientes && matricula in medicos ==>
                c == if SlotOcupado(turnos, matricula, fecha, hora) then Fail(TurnoOcupado) else Pass
    {
      if dni !in pacientes {
        return Fail(PacienteNoEncontrado);
      }
      if matricula !in medicos {
        return Fail(MedicoNoEncontrado);
      }
      var ocupado := BuscarConflicto(turnos, matricula, fecha, hora);
      if ocupado {
        return Fail(TurnoOcupado);
      }
      return Pass;
    }

    /** Appends a built appointment to the clinic's list and to its patient's
        history, keeping the invariant. */
    method Anotar(t: Turno, h: HistoriaClinica)
      requires Valid()
      requires t.paciente.dni in historias && h == historias[t.paciente.dni] && t.paciente == pacientes[t.paciente.dni]
      requires t.medico.matricula in medicos && medicos[t.medico.matricula] == t.medico
      modifies this`turnos, h`turnos
      ensures Valid()
      ensures turnos == old(turnos) + [t]
      ensures historias[t.paciente.dni].turnos == old(historias[t.paciente.dni].turnos) + [t]
      ensures historias[t.paciente.dni].recetas == old(historias[t.paciente.dni].recetas)
      ensures forall d :: d in historias && d != t.paciente.dni ==> historias[d].turnos == old(historias[d].turnos)
      ensures t.estado == old(t.estado)
    {
      var o := h.AgregarTurno(t);
      assert o == Pass;
      TurnosTrasAgenda(turnos, pacientes, medicos, t);
      turnos := turnos + [t];
    }

    /** emitir_receta: the same not-found checks, no slot check; a new
        prescription is appended to that patient's history only. */
    method EmitirReceta(dni: string, matricula: string, fecha: string, medicamentos: seq<string>, indicaciones: string)
      returns (r: Result<Receta>)
      requires Valid()
      modifies if dni in historias then {historias[dni]} else {}
      ensures Valid()
      ensures dni !in pacientes ==> r == Err(PacienteNoEncontrado)
      ensures dni in pacientes && matricula !in medicos ==> r == Err(MedicoNoEncontrado)
      ensures dni in pacientes && matricula in medicos ==>
                r == NuevaReceta(pacientes[dni], medicos[matricula], fecha, medicamentos, indicaciones)
      ensures dni in historias ==>
                && historias[dni].recetas == (if r.Ok? then old(historias[dni].recetas) + [r.value]
                                              else old(historias[dni].recetas))
                && historias[dni].turnos == old(historias[dni].turnos)
      ensures turnos == old(turnos)
      ensures forall d :: d in historias && d != dni ==> historias[d].recetas == old(historias[d].recetas)
    {
      if dni !in pacientes {
        return Err(PacienteNoEncontrado);
      }
      if matricula !in medicos {
        return Err(MedicoNoEncontrado);
      }
      r := NuevaReceta(pacientes[dni], medicos[matricula], fecha, medicamentos, indicaciones);
      if r.Err? {
        return;
      }
      var o := historias[dni].AgregarReceta(r.value);
      assert o == Pass;
    }

    method ObtenerHistoriaClinica(dni: string) returns (r: Result<HistoriaClinica>)
      requires Valid()
      ensures dni in historias ==> r == Ok(historias[dni])
      ensures dni !in historias ==> r == Err(PacienteNoEncontrado)
      ensures r.Ok? ==> r.value.paciente.dni == dni && r.value.Valid()
    {
      if dni !in historias {
        return Err(PacienteNoEncontrado);
      }
      return Ok(historias[dni]);
    }

    /** listar_pacientes: one entry per registered DNI, in registration order. */
    method ListarPacientes() returns (ps: seq<Paciente>)
      requires Valid()
      ensures |ps| == |pacientes| == |ordenPacientes|
      ensures forall i :: 0 <= i < |ps| ==> ordenPacientes[i] in pacientes && ps[i] == pacientes[ordenPacientes[i]]
      ensures forall dni :: dni in pacientes ==> pacientes[dni] in ps
    {
      var orden, registro := ordenPacientes, pacientes;
      ps := seq(|orden|, i requires 0 <= i < |orden| => registro[orden[i]]);
      CardinalSinRepetidos(orden);
      assert pacientes.Keys == (set x | x in orden);
      forall dni | dni in pacientes ensures pacientes[dni] in ps {
        var i :| 0 <= i < |ordenPacientes| && ordenPacientes[i] == dni;
        assert ps[i] == pacientes[dni];
      }
    }

    /** listar_medicos: one entry per registered licence, in registration order. */
    method ListarMedicos() returns (ms: seq<Medico>)
      requires Valid()
      ensures |ms| == |medicos| == |ordenMedicos|
      ensures forall i :: 0 <= i < |ms| ==> ordenMedicos[i] in medicos && ms[i] == medicos[ordenMedicos[i]]
      ensures forall mat :: mat in medicos ==> medicos[mat] in ms
    {
      var orden, registro := ordenMedicos, medicos;
      ms := seq(|orden|, i requires 0 <= i < |orden| => registro[orden[i]]);
      CardinalSinRepetidos(orden);
      assert medicos.Keys == (set x | x in orden);
      forall mat | mat in medicos ensures medicos[mat] in ms {
        var i :| 0 <= i < |ordenMedicos| && ordenMedicos[i] == mat;
        assert ms[i] == medicos[mat];
      }
    }

    method BuscarPaciente(dni: string) returns (r: Result<Paciente>)
      requires Valid()
      ensures dni in pacientes ==> r == Ok(pacientes[dni])
      ensures dni !in pacientes ==> r == Err(PacienteNoEncontrado)
      ensures r.Ok? ==> r.value.dni == dni
    {
      if dni !in pacientes {
        return Err(PacienteNoEncontrado);
      }
      return Ok(pacientes[dni]);
    }

    method BuscarMedico(matricula: string) returns (r: Result<Medico>)
      requires Valid()
      ensures matricula in medicos ==> r == Ok(medicos[matricula])
      ensures matricula !in medicos ==> r == Err(MedicoNoEncontrado)
      ensures r.Ok? ==> r.value.matricula == matricula && r.value.Valid()
    {
      if matricula !in medicos {
        return Err(MedicoNoEncontrado);
      }
      return Ok(medicos[matricula]);
    }
  }
}
