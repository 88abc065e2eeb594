/** A patient's clinical history: the appointments and prescriptions of that
    patient, in the order they were added. Items of another patient are
    refused, so every stored item has the owner's DNI. */
module Historias {
  import opened Errores
  import opened Pacientes
  import opened Turnos
  import opened Recetas

  class HistoriaClinica {
    const paciente: Paciente
    var turnos: seq<Turno>
    var recetas: seq<Receta>

    /** Every stored appointment and prescription belongs to the owner. */
    ghost predicate Valid()
      reads this
    {
      && (forall i :: 0 <= i < |turnos| ==> turnos[i].paciente.dni == paciente.dni)
      && (forall i :: 0 <= i < |recetas| ==> recetas[i].paciente.dni == paciente.dni)
    }

    constructor (paciente: Paciente)
      ensures this.paciente == paciente && turnos == [] && recetas == [] && Valid()
    {
      this.paciente := paciente;
      turnos := [];
      recetas := [];
    }

    /** agregar_turno: refuses an appointment of another patient, otherwise
        appends it; the prescriptions are left alone either way, and so the
        invariant holds afterwards exactly when it held before. */
    method AgregarTurno(t: Turno) returns (r: Outcome)
      modifies this`turnos
      ensures Valid() == old(Valid())
      ensures r == (if t.paciente.dni == paciente.dni then Pass else Fail(DatosInvalidos(TurnoAjeno)))
      ensures turnos == (if r.Pass? then old(turnos) + [t] else old(turnos))
      ensures recetas == old(recetas)
    {
      if t.paciente.dni != paciente.dni {
        return Fail(DatosInvalidos(TurnoAjeno));
      }
      turnos := turnos + [t];
      forall i | 0 <= i < |old(turnos)| ensures old(turnos)[i] == turnos[i] {
      }
      assert old(Valid()) ==> Valid();
      assert Valid() ==> old(Valid());
      return Pass;
    }

    /** agregar_receta: refuses a prescription of another patient, otherwise
        appends it; the appointments are left alone either way. */
    method AgregarReceta(rec: Receta) returns (r: Outcome)
      modifies this`recetas
      ensures Valid() == old(Valid())
      ensures r == (if rec.paciente.dni == paciente.dni then Pass else Fail(DatosInvalidos(RecetaAjena)))
      ensures recetas == (if r.Pass? then old(recetas) + [rec] else old(recetas))
      ensures turnos == old(turnos)
    {
      if rec.paciente.dni != paciente.dni {
        return Fail(DatosInvalidos(RecetaAjena));
      }
      recetas := recetas + [rec];
      forall i | 0 <= i < |old(recetas)| ensures old(recetas)[i] == recetas[i] {
      }
      assert old(Valid()) ==> Valid();
      assert Valid() ==> old(Valid());
      return Pass;
    }

    /** The getters hand out the lists as values: what the caller does with
        them cannot reach the history. */
    method ObtenerTurnos() returns (ts: seq<Turno>)
      requires Valid()
      ensures ts == turnos
      ensures forall i :: 0 <= i < |ts| ==> ts[i].paciente.dni == paciente.dni
    {
      ts := turnos;
    }

    method ObtenerRecetas() returns (rs: seq<Receta>)
      requires Valid()
      ensures rs == recetas
      ensures forall i :: 0 <= i < |rs| ==> rs[i].paciente.dni == paciente.dni
    {
      rs := recetas;
    }
  }
}
