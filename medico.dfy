/** A doctor, seen through what the rest of the program uses of it: a name, a
    licence number (matrícula), and for each canonical weekday the name of the
    specialty the doctor practises that day. */
module Medicos {
  import opened Errores
  import opened Fechas
  import opened Especialidades

  /** The agenda after adding specialty e to agenda antes: every day of e is
      assigned; a day e does not name keeps what it had; a day e names that
      had no specialty gets e's name; a day e names that already had one ends
      with either the old or the new name. */
  ghost predicate AgendaTrasAgregar(antes: map<string, string>, despues: map<string, string>, e: Especialidad) {
    && despues.Keys == antes.Keys + (set i | 0 <= i < |e.dias| :: e.dias[i])
    && (forall d :: d in antes && d !in e.dias ==> despues[d] == antes[d])
    && (forall d :: d in e.dias && d !in antes ==> despues[d] == e.tipo)
    && (forall d :: d in e.dias && d in antes ==> despues[d] == antes[d] || despues[d] == e.tipo)
  }

  class Medico {
    const nombre: string
    const matricula: string
    /** Canonical weekday name -> name of the specialty practised that day. */
    var agenda: map<string, string>

    /** Days are canonical weekday names and specialty names are not empty. */
    ghost predicate Valid()
      reads this
    {
      forall d :: d in agenda ==> d in NombresDias && agenda[d] != []
    }

    constructor (nombre: string, matricula: string)
      requires nombre != [] && matricula != []
      ensures this.nombre == nombre && this.matricula == matricula
      ensures agenda == map[] && Valid()
    {
      this.nombre := nombre;
      this.matricula := matricula;
      agenda := map[];
    }

    /** obtener_especialidad_para_dia: the specialty name for that day, or
        nothing when the doctor does not work that day. */
    function ObtenerEspecialidadParaDia(dia: string): (r: Option<string>)
      reads this
      ensures r.Some? <==> dia in agenda
      ensures r.Some? ==> r.value == agenda[dia]
    {
      if dia in agenda then Some(agenda[dia]) else None
    }

    method AgregarEspecialidad(e: Especialidad)
      requires EspecialidadValida(e)
      modifies this`agenda
      ensures old(Valid()) ==> Valid()
      ensures AgendaTrasAgregar(old(agenda), agenda, e)
    {
      agenda := agenda + map d | d in e.dias :: e.tipo;
    }
  }

  /** The doctor constructor's checks: the name, then the licence number. */
  function ValidarMedico(nombre: string, matricula: string): (r: Outcome)
    ensures r == Pass <==> nombre != [] && matricula != []
    ensures r.Fail? ==> r.error == DatosInvalidos(if nombre == [] then NombreRequerido else MatriculaRequerida)
  {
    if nombre == [] then Fail(DatosInvalidos(NombreRequerido))
    else if matricula == [] then Fail(DatosInvalidos(MatriculaRequerida))
    else Pass
  }

  /** Building a doctor: a new doctor with an empty agenda, or the error of
      ValidarMedico. */
  method NuevoMedico(nombre: string, matricula: string) returns (r: Result<Medico>)
    ensures r.Ok? <==> ValidarMedico(nombre, matricula) == Pass
    ensures r.Err? ==> r.error == ValidarMedico(nombre, matricula).error
    ensures r.Ok? ==> fresh(r.value) && r.value.nombre == nombre && r.value.matricula == matricula
                      && r.value.agenda == map[] && r.value.Valid()
  {
    var v := ValidarMedico(nombre, matricula);
    if v.Fail? {
      return Err(v.error);
    }
    var m := new Medico(nombre, matricula);
    return Ok(m);
  }
}
