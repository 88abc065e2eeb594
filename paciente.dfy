/** A patient: an immutable record whose constructor checks, in order, the
    name, the DNI and the birth date. */
module Pacientes {
  import opened Errores
  import opened Fechas

  datatype Paciente = Paciente(nombre: string, dni: string, fechaNacimiento: string)

  /** The constructor. The birth date must be a dd/mm/yyyy calendar date; any
      such date is accepted, also one in the future. */
  function NuevoPaciente(nombre: string, dni: string, fechaNacimiento: string): (r: Result<Paciente>)
    ensures r.Ok? <==> nombre != [] && dni != [] && EsFechaCanonica(fechaNacimiento)
    ensures r.Ok? ==> r.value.nombre == nombre && r.value.dni == dni
                      && r.value.fechaNacimiento == fechaNacimiento
    ensures nombre == [] ==> r == Err(DatosInvalidos(NombreRequerido))
    ensures nombre != [] && dni == [] ==> r == Err(DatosInvalidos(DniRequerido))
    ensures nombre != [] && dni != [] && !EsFechaCanonica(fechaNacimiento) ==>
              r == Err(DatosInvalidos(if fechaNacimiento == [] then FechaNacimientoRequerida else FormatoFecha))
  {
    ParseFechaAcepta(fechaNacimiento);
    if nombre == [] then Err(DatosInvalidos(NombreRequerido))
    else if dni == [] then Err(DatosInvalidos(DniRequerido))
    else if fechaNacimiento == [] then Err(DatosInvalidos(FechaNacimientoRequerida))
    else if ParseFecha(fechaNacimiento).None? then Err(DatosInvalidos(FormatoFecha))
    else Ok(Paciente(nombre, dni, fechaNacimiento))
  }

  /** Rebuilding a constructed patient from its getters gives it back. */
  lemma NuevoPacienteReconstruye(nombre: string, dni: string, fechaNacimiento: string)
    requires NuevoPaciente(nombre, dni, fechaNacimiento).Ok?
    ensures var p := NuevoPaciente(nombre, dni, fechaNacimiento).value;
            NuevoPaciente(p.nombre, p.dni, p.fechaNacimiento) == Ok(p)
  {
  }

  /** Examples from the program's tests, and a birth date in the future. */
  lemma EjemplosPaciente()
    ensures NuevoPaciente("Juan Cruz", "12345678", "03/02/1980") == Ok(Paciente("Juan Cruz", "12345678", "03/02/1980"))
    ensures NuevoPaciente("Juan Cruz", "12345678", "03/12/1980").Ok?
    ensures NuevoPaciente("Ana", "1", "01/01/2999").Ok?
  {
    assert ParseFecha("03/02/1980") == Some(Fecha(3, 2, 1980));
    assert ParseFecha("03/12/1980") == Some(Fecha(3, 12, 1980));
    assert ParseFecha("01/01/2999") == Some(Fecha(1, 1, 2999));
  }

  lemma EjemplosPacienteInvalido()
    ensures NuevoPaciente("Juan Cruz", "12345673", "1980-02-03") == Err(DatosInvalidos(FormatoFecha))
    ensures NuevoPaciente("", "12345678", "") == Err(DatosInvalidos(NombreRequerido))
  {
    assert ParseFecha("1980-02-03") == None;
  }
}
