/** A medical specialty: a name and the weekdays it is practised on. Day
    names are accepted in any letter case and with or without the accent of
    "miércoles" and "sábado"; they are stored in their canonical form. */
module Especialidades {
  import opened Errores
  import opened Fechas

  datatype Especialidad = Especialidad(tipo: string, dias: seq<string>)

  /** Lower case of a letter: ASCII letters and the accented capitals. */
  function MinusculaChar(c: char): char {
    if 'A' <= c <= 'Z' then (c as int + 32) as char
    else if c == 'Á' then 'á'
    else if c == 'É' then 'é'
    else if c == 'Í' then 'í'
    else if c == 'Ó' then 'ó'
    else if c == 'Ú' then 'ú'
    else if c == 'Ü' then 'ü'
    else if c == 'Ñ' then 'ñ'
    else c
  }

  /** Lower-cases every letter; nothing else changes. */
  function Minusculas(s: string): (r: string)
    ensures |r| == |s|
    ensures forall i :: 0 <= i < |r| ==> !('A' <= r[i] <= 'Z')
    ensures forall i :: 0 <= i < |r| && !('A' <= s[i] <= 'Z') && s[i] !in "ÁÉÍÓÚÜÑ" ==> r[i] == s[i]
  {
    seq(|s|, i requires 0 <= i < |s| => MinusculaChar(s[i]))
  }

  /** The spellings the constructor accepts, once lower-cased. */
  const DiasValidos: seq<string> :=
    ["lunes", "martes", "miercoles", "miércoles", "jueves", "viernes", "sabado", "sábado", "domingo"]

  /** Lower case, then the unaccented "miercoles" and "sabado" get their accent. */
  function Normalizar(d: string): (r: string)
    ensures r in NombresDias <==> Minusculas(d) in DiasValidos
    ensures Minusculas(d) !in DiasValidos ==> r == Minusculas(d)
  {
    var l := Minusculas(d);
    if l == "miercoles" then "miércoles"
    else if l == "sabado" then "sábado"
    else l
  }

  function Normalizados(ds: seq<string>): seq<string> {
    seq(|ds|, i requires 0 <= i < |ds| => Normalizar(ds[i]))
  }

  /** What every constructed specialty satisfies. */
  predicate EspecialidadValida(e: Especialidad) {
    e.tipo != [] && e.dias != [] && forall i :: 0 <= i < |e.dias| ==> e.dias[i] in NombresDias
  }

  /** verificar_dia: the normalised day is among the stored days. */
  predicate VerificarDia(e: Especialidad, d: string): (b: bool)
    ensures b && EspecialidadValida(e) ==> Minusculas(d) in DiasValidos
  {
    Normalizar(d) in e.dias
  }

  /** The constructor's outcome: the name is checked first, then that there
      are days, then every day. */
  function EspecialidadDe(tipo: string, dias: seq<string>): (r: Result<Especialidad>)
    ensures r.Ok? <==> tipo != [] && dias != []
                       && forall i :: 0 <= i < |dias| ==> Minusculas(dias[i]) in DiasValidos
    ensures r.Ok? ==> EspecialidadValida(r.value) && r.value.tipo == tipo && |r.value.dias| == |dias|
    ensures r.Ok? ==> forall i :: 0 <= i < |dias| ==> r.value.dias[i] == Normalizar(dias[i])
    ensures tipo == [] ==> r == Err(DatosInvalidos(TipoRequerido))
    ensures tipo != [] && dias == [] ==> r == Err(DatosInvalidos(SinDias))
    ensures tipo != [] && dias != [] && r.Err? ==> r == Err(DatosInvalidos(DiaInvalido))
  {
    if tipo == [] then Err(DatosInvalidos(TipoRequerido))
    else if dias == [] then Err(DatosInvalidos(SinDias))
    else if forall i :: 0 <= i < |dias| ==> Minusculas(dias[i]) in DiasValidos then
      Ok(Especialidad(tipo, Normalizados(dias)))
    else Err(DatosInvalidos(DiaInvalido))
  }

  /** The constructor as the program runs it: a loop that lower-cases each
      day, rejects it if it is not an accepted spelling, and appends its
      canonical form. */
  method NuevaEspecialidad(tipo: string, dias: seq<string>) returns (r: Result<Especialidad>)
    ensures r == EspecialidadDe(tipo, dias)
  {
    if tipo == [] {
      return Err(DatosInvalidos(TipoRequerido));
    }
    if dias == [] {
      return Err(DatosInvalidos(SinDias));
    }
    var normalizados: seq<string> := [];
    var i := 0;
    while i < |dias|
      invariant 0 <= i <= |dias|
      invariant forall j :: 0 <= j < i ==> Minusculas(dias[j]) in DiasValidos
      invariant normalizados == Normalizados(dias[..i])
    {
      var l := Minusculas(dias[i]);
      if l !in DiasValidos {
        return Err(DatosInvalidos(DiaInvalido));
      }
      if l == "miercoles" {
        l := "miércoles";
      } else if l == "sabado" {
        l := "sábado";
      }
      normalizados := normalizados + [l];
      i := i + 1;
    }
    assert dias[..i] == dias;
    return Ok(Especialidad(tipo, normalizados));
  }

  lemma MinusculaCharIdempotente(c: char)
    ensures MinusculaChar(MinusculaChar(c)) == MinusculaChar(c)
  {
  }

  lemma MinusculasIdempotente(s: string)
    ensures Minusculas(Minusculas(s)) == Minusculas(s)
  {
    forall i | 0 <= i < |s| ensures Minusculas(Minusculas(s))[i] == Minusculas(s)[i] {
      MinusculaCharIdempotente(s[i]);
    }
  }

  lemma CanonicosEnMinusculas()
    ensures Minusculas("miércoles") == "miércoles" && Minusculas("sábado") == "sábado"
  {
    assert Minusculas("miércoles") == ['m', 'i', 'é', 'r', 'c', 'o', 'l', 'e', 's'];
    assert Minusculas("sábado") == ['s', 'á', 'b', 'a', 'd', 'o'];
  }

  /** Normalising twice is normalising once. */
  lemma NormalizarIdempotente(d: string)
    ensures Normalizar(Normalizar(d)) == Normalizar(d)
  {
    MinusculasIdempotente(d);
    CanonicosEnMinusculas();
  }

  /** An accepted spelling normalises to one of the seven weekday names. */
  lemma NormalizarCanonico(d: string)
    requires Minusculas(d) in DiasValidos
    ensures Normalizar(d) in NombresDias
  {
  }

  /** A canonical weekday name is left as it is. */
  lemma NormalizarFijaCanonicos(d: string)
    requires d in NombresDias
    ensures Normalizar(d) == d
  {
    assert Minusculas("lunes") == "lunes";
    assert Minusculas("martes") == "martes";
    assert Minusculas("jueves") == "jueves";
    assert Minusculas("viernes") == "viernes";
    assert Minusculas("domingo") == "domingo";
    CanonicosEnMinusculas();
  }

  /** verificar_dia holds exactly for the days that normalise like one of the
      days the specialty was built from. */
  lemma VerificarDiaExacto(tipo: string, dias: seq<string>, d: string)
    ensures VerificarDia(Especialidad(tipo, Normalizados(dias)), d)
            <==> exists i :: 0 <= i < |dias| && Normalizar(dias[i]) == Normalizar(d)
  {
    var e := Especialidad(tipo, Normalizados(dias));
    if VerificarDia(e, d) {
      var i :| 0 <= i < |e.dias| && e.dias[i] == Normalizar(d);
      assert Normalizar(dias[i]) == Normalizar(d);
    }
    if i :| 0 <= i < |dias| && Normalizar(dias[i]) == Normalizar(d) {
      assert e.dias[i] == Normalizar(d);
    }
  }

  /** verificar_dia ignores letter case. */
  lemma VerificarDiaIgnoraMayusculas(e: Especialidad, d: string)
    ensures VerificarDia(e, Minusculas(d)) == VerificarDia(e, d)
  {
    MinusculasIdempotente(d);
  }

  /** verificar_dia ignores the accent of "miércoles" and "sábado". */
  lemma VerificarDiaIgnoraAcentos(e: Especialidad)
    ensures VerificarDia(e, "miercoles") == VerificarDia(e, "miércoles")
    ensures VerificarDia(e, "sabado") == VerificarDia(e, "sábado")
  {
    CanonicosEnMinusculas();
    assert Minusculas("miercoles") == "miercoles";
    assert Minusculas("sabado") == "sabado";
  }

  /** A stored day is found under its own name. */
  lemma VerificarDiaAlmacenado(e: Especialidad, i: int)
    requires EspecialidadValida(e) && 0 <= i < |e.dias|
    ensures VerificarDia(e, e.dias[i])
  {
    NormalizarFijaCanonicos(e.dias[i]);
  }
  /** Examples from the program's tests. */
  lemma EjemploPediatria()
    ensures EspecialidadDe("Pediatría", ["lunes", "miércoles", "viernes"])
            == Ok(Especialidad("Pediatría", ["lunes", "miércoles", "viernes"]))
  {
    var ds := ["lunes", "miércoles", "viernes"];
    assert Minusculas("lunes") == "lunes";
    assert Minusculas("viernes") == "viernes";
    CanonicosEnMinusculas();
    assert Normalizados(ds) == ds;
  }

  lemma EjemplosEspecialidadInvalida()
    ensures EspecialidadDe("", ["lunes"]) == Err(DatosInvalidos(TipoRequerido))
    ensures EspecialidadDe("Pediatría", []) == Err(DatosInvalidos(SinDias))
    ensures EspecialidadDe("Pediatría", ["lunes", "dia_inexistente"]) == Err(DatosInvalidos(DiaInvalido))
  {
    var ds := ["lunes", "dia_inexistente"];
    assert Minusculas(ds[1]) == "dia_inexistente";
  }
}
