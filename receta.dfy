/** A prescription (receta): an immutable record of the medications and
    instructions a doctor gives a patient on a date. */
module Recetas {
  import opened Errores
  import opened Fechas
  import opened Pacientes
  import opened Medicos

  datatype Receta = Receta(paciente: Paciente, medico: Medico, fecha: string,
                           medicamentos: seq<string>, indicaciones: string)

  /** What every constructed prescription satisfies. */
  ghost predicate RecetaValida(r: Receta) {
    && EsFechaCanonica(r.fecha)
    && r.medicamentos != []
    && (forall i :: 0 <= i < |r.medicamentos| ==> r.medicamentos[i] != [])
    && r.indicaciones != []
  }

  /** The constructor. It checks, in order, that the date, the medication
      list and the instructions are not empty, then the date's format, then
      each medication. The record keeps its own copy of the list. */
  function NuevaReceta(paciente: Paciente, medico: Medico, fecha: string,
                       medicamentos: seq<string>, indicaciones: string): (r: Result<Receta>)
    ensures r.Ok? <==> RecetaValida(Receta(paciente, medico, fecha, medicamentos, indicaciones))
    ensures r.Ok? ==> r.value == Receta(paciente, medico, fecha, medicamentos, indicaciones)
    ensures fecha == [] ==> r == Err(DatosInvalidos(FechaRequerida))
    ensures fecha != [] && medicamentos == [] ==> r == Err(DatosInvalidos(SinMedicamentos))
    ensures fecha != [] && medicamentos != [] && indicaciones == [] ==> r == Err(DatosInvalidos(IndicacionesRequeridas))
    ensures fecha != [] && medicamentos != [] && indicaciones != [] && !EsFechaCanonica(fecha) ==>
              r == Err(DatosInvalidos(FormatoFecha))
    ensures EsFechaCanonica(fecha) && indicaciones != [] && (exists i :: 0 <= i < |medicamentos| && medicamentos[i] == []) ==>
              r == Err(DatosInvalidos(MedicamentoInvalido))
  {
    ParseFechaAcepta(fecha);
    if fecha == [] then Err(DatosInvalidos(FechaRequerida))
    else if medicamentos == [] then Err(DatosInvalidos(SinMedicamentos))
    else if indicaciones == [] then Err(DatosInvalidos(IndicacionesRequeridas))
    else if ParseFecha(fecha).None? then Err(DatosInvalidos(FormatoFecha))
    else if exists i :: 0 <= i < |medicamentos| && medicamentos[i] == [] then Err(DatosInvalidos(MedicamentoInvalido))
    else Ok(Receta(paciente, medico, fecha, medicamentos, indicaciones))
  }

  /** Examples from the program's tests. */
  lemma EjemploRecetaValida(p: Paciente, m: Medico)
    ensures NuevaReceta(p, m, "15/07/2025", ["Paracetamol 500mg", "Ibuprofeno 400mg"], "Tomar cada 7 horas")
            == Ok(Receta(p, m, "15/07/2025", ["Paracetamol 500mg", "Ibuprofeno 400mg"], "Tomar cada 7 horas"))
  {
    assert ParseFecha("15/07/2025").Some?;
  }

  lemma EjemplosRecetaInvalida(p: Paciente, m: Medico)
    ensures NuevaReceta(p, m, "15/07/2025", ["", "Ibuprofeno"], "Tomar") == Err(DatosInvalidos(MedicamentoInvalido))
    ensures NuevaReceta(p, m, "32/07/2025", ["Paracetamol 500mg"], "Tomar") == Err(DatosInvalidos(FormatoFecha))
    ensures NuevaReceta(p, m, "2025-07-15", ["Paracetamol 500mg"], "Tomar") == Err(DatosInvalidos(FormatoFecha))
    ensures NuevaReceta(p, m, "15/07/2025", [], "Tomar") == Err(DatosInvalidos(SinMedicamentos))
    ensures NuevaReceta(p, m, "15/07/2025", ["Paracetamol 500mg"], "") == Err(DatosInvalidos(IndicacionesRequeridas))
  {
    assert ParseFecha("15/07/2025").Some?;
    assert ParseFecha("32/07/2025").None?;
    assert ParseFecha("2025-07-15").None?;
    var ms := ["", "Ibuprofeno"];
    assert ms[0] == [];
  }
}
