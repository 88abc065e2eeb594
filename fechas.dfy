/** Calendar dates written dd/mm/yyyy, times of day written HH:MM, and the
    weekday of a date in the proleptic Gregorian calendar, counted from
    Monday = 0 as the program's weekday table does. */
module Fechas {
  import opened Errores

  datatype Fecha = Fecha(dia: int, mes: int, anio: int)
  datatype Hora = Hora(horas: int, minutos: int)

  // ---------------------------------------------------------------------
  // Digits

  predicate EsDigito(c: char) { '0' <= c <= '9' }

  function ValorDigito(c: char): (n: int)
    requires EsDigito(c)
    ensures 0 <= n <= 9
  {
    c as int - '0' as int
  }

  function CharDigito(n: int): (c: char)
    requires 0 <= n <= 9
    ensures EsDigito(c) && ValorDigito(c) == n
  {
    ('0' as int + n) as char
  }

  lemma DigitoIda(c: char)
    requires EsDigito(c)
    ensures CharDigito(ValorDigito(c)) == c
  {
  }

  /** The two-digit number written at s[i], s[i+1]. */
  function Dos(s: string, i: nat): int
    requires i + 2 <= |s| && EsDigito(s[i]) && EsDigito(s[i + 1])
  {
    10 * ValorDigito(s[i]) + ValorDigito(s[i + 1])
  }

  /** The four-digit number written at s[i..i+4]. */
  function Cuatro(s: string, i: nat): int
    requires i + 4 <= |s|
    requires EsDigito(s[i]) && EsDigito(s[i + 1]) && EsDigito(s[i + 2]) && EsDigito(s[i + 3])
  {
    100 * Dos(s, i) + Dos(s, i + 2)
  }

  /** n written with exactly two digits. */
  function DosDigitos(n: int): (s: string)
    requires 0 <= n <= 99
    ensures |s| == 2
  {
    [CharDigito(n / 10), CharDigito(n % 10)]
  }

  /** n written with exactly four digits. */
  function CuatroDigitos(n: int): (s: string)
    requires 0 <= n <= 9999
    ensures |s| == 4
  {
    DosDigitos(n / 100) + DosDigitos(n % 100)
  }

  lemma DosDigitosLee(s: string, i: nat, n: int)
    requires 0 <= n <= 99
    requires i + 2 <= |s| && s[i..i + 2] == DosDigitos(n)
    ensures EsDigito(s[i]) && EsDigito(s[i + 1]) && Dos(s, i) == n
  {
    assert s[i] == DosDigitos(n)[0] && s[i + 1] == DosDigitos(n)[1];
  }

  lemma DosLeeDigitos(s: string, i: nat)
    requires i + 2 <= |s| && EsDigito(s[i]) && EsDigito(s[i + 1])
    ensures 0 <= Dos(s, i) <= 99 && s[i..i + 2] == DosDigitos(Dos(s, i))
  {
    var a, b := ValorDigito(s[i]), ValorDigito(s[i + 1]);
    assert (10 * a + b) / 10 == a && (10 * a + b) % 10 == b;
    DigitoIda(s[i]);
    DigitoIda(s[i + 1]);
  }

  // ---------------------------------------------------------------------
  // Calendar

  predicate Bisiesto(y: int) {
    y % 4 == 0 && (y % 100 != 0 || y % 400 == 0)
  }

  function DiasDelMes(m: int, y: int): (n: int)
    requires 1 <= m <= 12
    ensures 28 <= n <= 31
  {
    if m == 2 then (if Bisiesto(y) then 29 else 28)
    else if m == 4 || m == 6 || m == 9 || m == 11 then 30
    else 31
  }

  /** A date the calendar has; years have four digits and start at 1. */
  predicate FechaValida(f: Fecha) {
    1 <= f.anio <= 9999 && 1 <= f.mes <= 12 && 1 <= f.dia <= DiasDelMes(f.mes, f.anio)
  }

  /** Days in the years before year y (y >= 1). */
  function DiasAntesDelAnio(y: int): int
    requires y >= 1
  {
    var n := y - 1;
    365 * n + n / 4 - n / 100 + n / 400
  }

  /** Days in the months of year y before month m. */
  function DiasAntesDelMes(m: int, y: int): int
    requires 1 <= m <= 12
  {
    [0, 31, 59, 90, 120, 151, 181, 212, 243, 273, 304, 334][m - 1]
      + (if m > 2 && Bisiesto(y) then 1 else 0)
  }

  /** Day number of a date, 01/01/0001 being day 1. */
  function Ordinal(f: Fecha): (o: int)
    requires FechaValida(f)
    ensures o >= 1
  {
    DiasAntesDelAnio(f.anio) + DiasAntesDelMes(f.mes, f.anio) + f.dia
  }

  /** Weekday of a date, Monday = 0 .. Sunday = 6. */
  function DiaDeLaSemana(f: Fecha): (w: int)
    requires FechaValida(f)
    ensures 0 <= w < 7
  {
    (Ordinal(f) + 6) % 7
  }

  /** The weekday names, Monday first. */
  const NombresDias: seq<string> :=
    ["lunes", "martes", "miércoles", "jueves", "viernes", "sábado", "domingo"]

  function NombreDia(f: Fecha): (d: string)
    requires FechaValida(f)
    ensures d in NombresDias
  {
    NombresDias[DiaDeLaSemana(f)]
  }

  /** The calendar day after f; 31/12/9999 has none with four digits. */
  function Siguiente(f: Fecha): Fecha
    requires FechaValida(f)
  {
    if f.dia < DiasDelMes(f.mes, f.anio) then Fecha(f.dia + 1, f.mes, f.anio)
    else if f.mes < 12 then Fecha(1, f.mes + 1, f.anio)
    else Fecha(1, 1, f.anio + 1)
  }

  lemma {:induction false} MultiploAlMenos(x: int, k: int)
    requires x >= 1 && k >= 0
    ensures x * k >= k
    decreases x
  {
    if x > 1 {
      MultiploAlMenos(x - 1, k);
      assert x * k == (x - 1) * k + k;
    }
  }

  /** a = q*k + r with 0 <= r < k determines the quotient and the remainder. */
  lemma DivisionUnica(a: int, k: int, q: int, r: int)
    requires k > 0 && a == q * k + r && 0 <= r < k
    ensures a / k == q && a % k == r
  {
    var q', r' := a / k, a % k;
    assert a == q' * k + r' && 0 <= r' < k;
    if q > q' {
      assert (q - q') * k == q * k - q' * k;
      MultiploAlMenos(q - q', k);
    } else if q < q' {
      assert (q' - q) * k == q' * k - q * k;
      MultiploAlMenos(q' - q, k);
    }
  }

  /** Quotient and remainder of the successor of n. */
  lemma DivisionSucesor(n: int, k: int)
    requires k > 0
    ensures (n + 1) / k == n / k + (if n % k == k - 1 then 1 else 0)
    ensures (n + 1) % k == (if n % k == k - 1 then 0 else n % k + 1)
  {
    var q, r := n / k, n % k;
    assert n == q * k + r && 0 <= r < k;
    if r + 1 < k {
      DivisionUnica(n + 1, k, q, r + 1);
    } else {
      assert n + 1 == (q + 1) * k + 0;
      DivisionUnica(n + 1, k, q + 1, 0);
    }
  }

  lemma DiasAntesDelAnioPaso(y: int)
    requires y >= 1
    ensures DiasAntesDelAnio(y + 1) == DiasAntesDelAnio(y) + 365 + (if Bisiesto(y) then 1 else 0)
  {
    DivisionSucesor(y - 1, 4);
    DivisionSucesor(y - 1, 100);
    DivisionSucesor(y - 1, 400);
    assert y % 4 == 0 <==> (y - 1) % 4 == 3;
    assert y % 100 == 0 <==> (y - 1) % 100 == 99;
    assert y % 400 == 0 <==> (y - 1) % 400 == 399;
  }

  /** The next day is a calendar date one day number later. */
  lemma OrdinalSiguiente(f: Fecha)
    requires FechaValida(f) && f != Fecha(31, 12, 9999)
    ensures FechaValida(Siguiente(f)) && Ordinal(Siguiente(f)) == Ordinal(f) + 1
  {
    if f.dia == DiasDelMes(f.mes, f.anio) && f.mes == 12 {
      DiasAntesDelAnioPaso(f.anio);
    }
  }

  /** Weekdays advance by one per calendar day (Sunday is followed by Monday). */
  lemma DiaDeLaSemanaSiguiente(f: Fecha)
    requires FechaValida(f) && f != Fecha(31, 12, 9999)
    ensures FechaValida(Siguiente(f))
    ensures DiaDeLaSemana(Siguiente(f)) == (DiaDeLaSemana(f) + 1) % 7
  {
    OrdinalSiguiente(f);
    DivisionSucesor(Ordinal(f) + 6, 7);
  }

  /** Day number within the year, 1 .. length of the year. */
  lemma DiaDelAnioAcotado(f: Fecha)
    requires FechaValida(f)
    ensures 1 <= Ordinal(f) - DiasAntesDelAnio(f.anio) <= 365 + (if Bisiesto(f.anio) then 1 else 0)
  {
  }

  /** Later years start after the whole of every earlier year. */
  lemma {:induction false} DiasAntesDelAnioCrece(y: int, z: int)
    requires 1 <= y < z
    ensures DiasAntesDelAnio(z) >= DiasAntesDelAnio(y) + 365 + (if Bisiesto(y) then 1 else 0)
    decreases z - y
  {
    DiasAntesDelAnioPaso(y);
    if y + 1 < z {
      DiasAntesDelAnioCrece(y + 1, z);
    }
  }

  /** Days of a year before two different months differ by a whole month. */
  lemma {:induction false} DiasAntesDelMesCrece(m: int, n: int, y: int)
    requires 1 <= m < n <= 12
    ensures DiasAntesDelMes(n, y) >= DiasAntesDelMes(m, y) + DiasDelMes(m, y)
  {
  }

  /** Distinct calendar dates have distinct day numbers. */
  lemma OrdinalInyectivo(f: Fecha, g: Fecha)
    requires FechaValida(f) && FechaValida(g) && Ordinal(f) == Ordinal(g)
    ensures f == g
  {
    DiaDelAnioAcotado(f);
    DiaDelAnioAcotado(g);
    if f.anio < g.anio {
      DiasAntesDelAnioCrece(f.anio, g.anio);
    } else if g.anio < f.anio {
      DiasAntesDelAnioCrece(g.anio, f.anio);
    }
    assert f.anio == g.anio;
    if f.mes < g.mes {
      DiasAntesDelMesCrece(f.mes, g.mes, f.anio);
    } else if g.mes < f.mes {
      DiasAntesDelMesCrece(g.mes, f.mes, f.anio);
    }
  }

  // ---------------------------------------------------------------------
  // dd/mm/yyyy

  /** Ten characters: two digits, '/', two digits, '/', four digits. */
  predicate FormaFecha(s: string) {
    |s| == 10 && s[2] == '/' && s[5] == '/'
    && EsDigito(s[0]) && EsDigito(s[1]) && EsDigito(s[3]) && EsDigito(s[4])
    && EsDigito(s[6]) && EsDigito(s[7]) && EsDigito(s[8]) && EsDigito(s[9])
  }

  /** The date a text denotes under the format %d/%m/%Y, if it is one. */
  function ParseFecha(s: string): (r: Option<Fecha>)
    ensures r.Some? ==> FechaValida(r.value) && |s| == 10 && s[2] == '/' && s[5] == '/'
  {
    if FormaFecha(s) then
      var f := Fecha(Dos(s, 0), Dos(s, 3), Cuatro(s, 6));
      if FechaValida(f) then Some(f) else None
    else None
  }

  function TextoFecha(f: Fecha): (s: string)
    requires FechaValida(f)
    ensures |s| == 10
  {
    DosDigitos(f.dia) + "/" + DosDigitos(f.mes) + "/" + CuatroDigitos(f.anio)
  }

  lemma CuatroLeeDigitos(s: string, i: nat)
    requires i + 4 <= |s|
    requires EsDigito(s[i]) && EsDigito(s[i + 1]) && EsDigito(s[i + 2]) && EsDigito(s[i + 3])
    ensures 0 <= Cuatro(s, i) <= 9999 && s[i..i + 4] == CuatroDigitos(Cuatro(s, i))
  {
    DosLeeDigitos(s, i);
    DosLeeDigitos(s, i + 2);
    DivisionUnica(Cuatro(s, i), 100, Dos(s, i), Dos(s, i + 2));
    assert s[i..i + 4] == s[i..i + 2] + s[i + 2..i + 4];
  }

  lemma CuatroDigitosLee(s: string, i: nat, n: int)
    requires 0 <= n <= 9999
    requires i + 4 <= |s| && s[i..i + 4] == CuatroDigitos(n)
    ensures EsDigito(s[i]) && EsDigito(s[i + 1]) && EsDigito(s[i + 2]) && EsDigito(s[i + 3])
    ensures Cuatro(s, i) == n
  {
    assert s[i..i + 2] == CuatroDigitos(n)[0..2] == DosDigitos(n / 100);
    assert s[i + 2..i + 4] == CuatroDigitos(n)[2..4] == DosDigitos(n % 100);
    DosDigitosLee(s, i, n / 100);
    DosDigitosLee(s, i + 2, n % 100);
  }

  lemma ParseFechaCanonica(s: string, f: Fecha)
    requires ParseFecha(s) == Some(f)
    ensures FechaValida(f) && s == TextoFecha(f)
  {
    DosLeeDigitos(s, 0);
    DosLeeDigitos(s, 3);
    CuatroLeeDigitos(s, 6);
    assert s == s[0..2] + "/" + s[3..5] + "/" + s[6..10];
  }

  lemma ParseFechaDeFormato(f: Fecha)
    requires FechaValida(f)
    ensures ParseFecha(TextoFecha(f)) == Some(f)
  {
    var s := TextoFecha(f);
    assert s[0..2] == DosDigitos(f.dia) && s[2] == '/';
    assert s[3..5] == DosDigitos(f.mes) && s[5] == '/';
    assert s[6..10] == CuatroDigitos(f.anio);
    DosDigitosLee(s, 0, f.dia);
    DosDigitosLee(s, 3, f.mes);
    CuatroDigitosLee(s, 6, f.anio);
  }

  /** The parser accepts exactly the canonical renderings of calendar dates. */
  lemma ParseFechaExacto(s: string, f: Fecha)
    ensures ParseFecha(s) == Some(f) <==> FechaValida(f) && s == TextoFecha(f)
  {
    if ParseFecha(s) == Some(f) {
      ParseFechaCanonica(s, f);
    }
    if FechaValida(f) && s == TextoFecha(f) {
      ParseFechaDeFormato(f);
    }
  }

  /** The text is the dd/mm/yyyy rendering of some calendar date. */
  ghost predicate EsFechaCanonica(s: string) {
    exists f :: FechaValida(f) && s == TextoFecha(f)
  }

  lemma ParseFechaAcepta(s: string)
    ensures ParseFecha(s).Some? <==> EsFechaCanonica(s)
    ensures forall f :: FechaValida(f) && s == TextoFecha(f) ==> ParseFecha(s) == Some(f)
  {
    forall f | FechaValida(f) && s == TextoFecha(f) ensures ParseFecha(s) == Some(f) {
      ParseFechaExacto(s, f);
    }
    if ParseFecha(s).Some? {
      ParseFechaExacto(s, ParseFecha(s).value);
    }
    if EsFechaCanonica(s) {
      var f :| FechaValida(f) && s == TextoFecha(f);
      ParseFechaExacto(s, f);
    }
  }

  // ---------------------------------------------------------------------
  // HH:MM

  predicate HoraValida(h: Hora) {
    0 <= h.horas <= 23 && 0 <= h.minutos <= 59
  }

  /** Five characters: two digits, ':', two digits. */
  predicate FormaHora(s: string) {
    |s| == 5 && s[2] == ':' && EsDigito(s[0]) && EsDigito(s[1]) && EsDigito(s[3]) && EsDigito(s[4])
  }

  /** The time of day a text denotes under the format %H:%M, if it is one. */
  function ParseHora(s: string): (r: Option<Hora>)
    ensures r.Some? ==> HoraValida(r.value) && |s| == 5 && s[2] == ':'
  {
    if FormaHora(s) then
      var h := Hora(Dos(s, 0), Dos(s, 3));
      if HoraValida(h) then Some(h) else None
    else None
  }

  function TextoHora(h: Hora): (s: string)
    requires HoraValida(h)
    ensures |s| == 5
  {
    DosDigitos(h.horas) + ":" + DosDigitos(h.minutos)
  }

  /** The parser accepts exactly the canonical renderings of times of day. */
  lemma ParseHoraExacto(s: string, h: Hora)
    ensures ParseHora(s) == Some(h) <==> HoraValida(h) && s == TextoHora(h)
  {
    if ParseHora(s) == Some(h) {
      DosLeeDigitos(s, 0);
      DosLeeDigitos(s, 3);
      assert s == s[0..2] + ":" + s[3..5];
    }
    if HoraValida(h) && s == TextoHora(h) {
      assert s[0..2] == DosDigitos(h.horas) && s[2] == ':' && s[3..5] == DosDigitos(h.minutos);
      DosDigitosLee(s, 0, h.horas);
      DosDigitosLee(s, 3, h.minutos);
    }
  }

  /** The text is the HH:MM rendering of some time of day. */
  ghost predicate EsHoraCanonica(s: string) {
    exists h :: HoraValida(h) && s == TextoHora(h)
  }

  lemma ParseHoraAcepta(s: string)
    ensures ParseHora(s).Some? <==> EsHoraCanonica(s)
  {
    if ParseHora(s).Some? {
      ParseHoraExacto(s, ParseHora(s).value);
    }
    if EsHoraCanonica(s) {
      var h :| HoraValida(h) && s == TextoHora(h);
      ParseHoraExacto(s, h);
    }
  }

  // ---------------------------------------------------------------------
  // Dates the program's tests use

  lemma PrimeraFecha()
    ensures ParseFecha("01/01/0001") == Some(Fecha(1, 1, 1))
  {
  }

  /** 01/01/0001 is day 1 and a Monday. */
  lemma PrimerDiaEsLunes()
    ensures NombreDia(Fecha(1, 1, 1)) == "lunes"
  {
    assert DiasAntesDelAnio(1) == 0 && DiasAntesDelMes(1, 1) == 0;
    var o := Ordinal(Fecha(1, 1, 1));
    assert o == 1;
    assert (o + 6) % 7 == 0;
    assert DiaDeLaSemana(Fecha(1, 1, 1)) == 0;
  }

  lemma Ejemplos()
    ensures ParseFecha("16/07/2025") == Some(Fecha(16, 7, 2025))
    ensures ParseFecha("17/07/2025") == Some(Fecha(17, 7, 2025))
    ensures ParseFecha("32/07/2025") == None
    ensures ParseFecha("2025-07-16") == None
    ensures ParseFecha("29/02/2024").Some? && ParseFecha("29/02/2025") == None
  {
  }

  lemma EjemplosDia()
    ensures NombreDia(Fecha(16, 7, 2025)) == "miércoles"
    ensures NombreDia(Fecha(17, 7, 2025)) == "jueves"
  {
  }

  lemma EjemplosHora()
    ensures ParseHora("10:30") == Some(Hora(10, 30))
    ensures ParseHora("25:30") == None && ParseHora("10:70") == None
  {
  }
}
