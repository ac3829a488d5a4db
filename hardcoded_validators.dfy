/**
 * `src/hardcoded_validators.py`: `ValidadorFijo`, the fixed checks every
 * report must pass on its "NOMBRE" sheet, each appending its own message
 * to the error list in a fixed order.
 *
 * Each check is specified by a function of what the reader returns for
 * the cells it looks at; `ErroresFijos` composes them into the whole list
 * `validar_todo` leaves behind.
 */
module HardcodedValidators {
  import opened Wrappers
  import opened Values
  import opened Utils
  import opened XlsmParser

  const HojaNombre: string := "NOMBRE"

  /** The table inside `_validar_nombre_mes`: month number to upper-case name. */
  const MapaMesesNombre: map<string, string> := map[
    "01" := "ENERO", "02" := "FEBRERO", "03" := "MARZO", "04" := "ABRIL",
    "05" := "MAYO", "06" := "JUNIO", "07" := "JULIO", "08" := "AGOSTO",
    "09" := "SEPTIEMBRE", "10" := "OCTUBRE", "11" := "NOVIEMBRE", "12" := "DICIEMBRE"]

  /** The cells `_validar_celdas_requeridas` reads one by one. */
  const CeldasRequeridas: seq<string> := ["B2", "B3"]

  // ---------------------------------------------------------------------
  // Messages
  // ---------------------------------------------------------------------

  function ConventionError(nombreArchivo: string): string {
    "El nombre de archivo '" + nombreArchivo + "' no sigue la convención esperada."
  }

  function MissingSheetError(nombreHoja: string, nombreArchivo: string): string {
    "La hoja '" + nombreHoja + "' no se encontró en " + nombreArchivo
  }

  const RangeUnreadableError: string := "El rango NOMBRE!C3:H3 está vacío o no se pudo leer."

  function CodeMismatchError(codigo: string, desdeCeldas: string): string {
    "El código de establecimiento no coincide: en el nombre del archivo es '" + codigo
    + "', pero en NOMBRE!C3:H3 es '" + desdeCeldas + "'."
  }

  function RequiredCellError(refCelda: string): string {
    "La celda requerida NOMBRE!" + refCelda + " está vacía."
  }

  const RequiredRangeError: string := "El rango requerido NOMBRE!C2:G2 está vacío."

  const MonthNameEmptyError: string := "El nombre del mes en NOMBRE!B6 está vacío."

  /** The expected name prints as "None" when the month has no entry in the table. */
  function MonthNameMismatchError(mes: string, esperado: Option<string>, celda: Value): string {
    "El nombre del mes no coincide: en el archivo es '" + mes + "' (esperado '"
    + (if esperado.Some? then esperado.value else "None") + "'), pero en NOMBRE!B6 es '" + Render(celda) + "'."
  }

  const MonthNumberEmptyError: string := "El número del mes en NOMBRE!C6 o NOMBRE!D6 está vacío."

  function MonthNumberMismatchError(mes: string, desdeCeldas: string): string {
    "El número del mes no coincide: en el archivo es '" + mes + "', pero en NOMBRE!C6:D6 es '" + desdeCeldas + "'."
  }

  // ---------------------------------------------------------------------
  // The checks as functions
  // ---------------------------------------------------------------------

  /** `"".join(str(v) for v in fila if v is not None)`. */
  function UnirNoVacios(fila: seq<Value>): string
    decreases |fila|
  {
    if fila == [] then "" else Pieza(fila[0]) + UnirNoVacios(fila[1..])
  }

  /** What one cell adds to the join: nothing for `None`, else `str(v)`. */
  function Pieza(v: Value): string {
    if v.Empty? then "" else Render(v)
  }

  /** `v is None or str(v).strip() == ""`. */
  predicate Vacia(v: Value) {
    v.Empty? || IsBlank(Render(v))
  }

  /** `any(c is not None and str(c).strip() != "" for c in fila)`. */
  predicate AlgunaLlena(fila: seq<Value>) {
    exists j :: 0 <= j < |fila| && !Vacia(fila[j])
  }

  /** The expected upper-case name of month `mes`, `None` for a number outside the table. */
  function NombreEsperado(mes: string): (r: Option<string>)
    ensures r.Some? <==> mes in MapaMesesNombre
  {
    if mes in MapaMesesNombre then Some(MapaMesesNombre[mes]) else None
  }

  /** `_validar_convencion_nombre_archivo`. */
  function ErroresConvencion(ruta: string, codigo: string, serie: string, mes: string): seq<string> {
    if codigo == "" || serie == "" || mes == "" then [ConventionError(BaseName(ruta))] else []
  }

  /** `_validar_codigo_establecimiento`, given what reading C3:H3 returned. */
  function ErroresCodigo(rango: Option<seq<seq<Value>>>, codigo: string): seq<string> {
    if rango.None? || rango.value == [] || rango.value[0] == [] then [RangeUnreadableError]
    else if UnirNoVacios(rango.value[0]) != codigo then [CodeMismatchError(codigo, UnirNoVacios(rango.value[0]))]
    else []
  }

  /** `_validar_celdas_requeridas`, given B2, B3 and what reading C2:G2 returned. */
  function ErroresCeldas(b2: Value, b3: Value, rango: Option<seq<seq<Value>>>): seq<string> {
    (if Vacia(b2) then [RequiredCellError("B2")] else [])
    + (if Vacia(b3) then [RequiredCellError("B3")] else [])
    + (if rango.None? || rango.value == [] || !AlgunaLlena(rango.value[0]) then [RequiredRangeError] else [])
  }

  /** `_validar_nombre_mes`, given B6. */
  function ErroresNombreMes(b6: Value, mes: string): seq<string> {
    if !Truthy(b6) || IsBlank(Render(b6)) then [MonthNameEmptyError]
    else if NombreEsperado(mes).None? || Upper(Render(b6)) != NombreEsperado(mes).value
    then [MonthNameMismatchError(mes, NombreEsperado(mes), b6)]
    else []
  }

  /** `_validar_numero_mes`, given C6 and D6. */
  function ErroresNumeroMes(c6: Value, d6: Value, mes: string): seq<string> {
    if c6.Empty? || d6.Empty? then [MonthNumberEmptyError]
    else if Render(c6) + Render(d6) != mes then [MonthNumberMismatchError(mes, Render(c6) + Render(d6))]
    else []
  }

  /** `_validar_hoja_nombre`: one error without the sheet, else the four checks in order. */
  function ErroresHoja(wb: Option<Workbook>, ruta: string, nombreHoja: string, codigo: string, mes: string)
    : seq<string>
  {
    if SheetOf(wb, nombreHoja).None? then [MissingSheetError(nombreHoja, BaseName(ruta))]
    else
      ErroresCodigo(ValoresRango(wb, nombreHoja, 3, 3, 8, 3), codigo)
      + ErroresCeldas(LeerCelda(wb, nombreHoja, "B", 2), LeerCelda(wb, nombreHoja, "B", 3),
                      ValoresRango(wb, nombreHoja, 3, 2, 7, 2))
      + ErroresNombreMes(LeerCelda(wb, nombreHoja, "B", 6), mes)
      + ErroresNumeroMes(LeerCelda(wb, nombreHoja, "C", 6), LeerCelda(wb, nombreHoja, "D", 6), mes)
  }

  /** The list `validar_todo` leaves: the convention error alone, or the sheet's errors. */
  function ErroresFijos(ruta: string, wb: Option<Workbook>, codigo: string, serie: string, mes: string)
    : seq<string>
  {
    if ErroresConvencion(ruta, codigo, serie, mes) != [] then ErroresConvencion(ruta, codigo, serie, mes)
    else ErroresHoja(wb, ruta, HojaNombre, codigo, mes)
  }

  // ---------------------------------------------------------------------
  // Properties
  // ---------------------------------------------------------------------

  /** The two month tables are inverse to each other. */
  lemma MesesInversos()
    ensures forall n :: n in MapaMeses ==> MapaMeses[n] in MapaMesesNombre && MapaMesesNombre[MapaMeses[n]] == n
    ensures forall m :: m in MapaMesesNombre ==> MapaMesesNombre[m] in MapaMeses && MapaMeses[MapaMesesNombre[m]] == m
  {
  }

  /**
   * A non-blank B6 passes exactly when `nombre_mes_a_numero` maps it back to
   * the file's month, so the two month tables of the program agree.
   */
  lemma NombreMesCoincide(b6: Value, mes: string)
    requires Truthy(b6) && !IsBlank(Render(b6))
    ensures ErroresNombreMes(b6, mes) == [] <==> NombreMesANumero(Render(b6)) == Some(mes)
  {
    MesesInversos();
  }

  /** A month number outside the table always fails the name check. */
  lemma MesSinNombreFalla(b6: Value, mes: string)
    requires mes !in MapaMesesNombre
    ensures |ErroresNombreMes(b6, mes)| == 1
  {
  }

  /** Joining the non-empty cells distributes over splitting the row. */
  lemma {:induction false} UnirConcat(a: seq<Value>, b: seq<Value>)
    ensures UnirNoVacios(a + b) == UnirNoVacios(a) + UnirNoVacios(b)
    decreases |a|
  {
    if a == [] {
      assert a + b == b;
    } else {
      assert (a + b)[1..] == a[1..] + b;
      UnirConcat(a[1..], b);
    }
  }

  /** A row of empty cells joins to "". */
  lemma {:induction false} UnirVacias(b: seq<Value>)
    requires forall j :: 0 <= j < |b| ==> b[j].Empty?
    ensures UnirNoVacios(b) == ""
    decreases |b|
  {
    if b != [] {
      UnirVacias(b[1..]);
    }
  }

  /** Empty cells contribute nothing: the code may be spread over C3:H3 with gaps. */
  lemma UnirSaltaVacias(a: seq<Value>, b: seq<Value>)
    ensures UnirNoVacios(a + [Empty] + b) == UnirNoVacios(a) + UnirNoVacios(b)
  {
    var r := [Empty] + b;
    assert a + [Empty] + b == a + r;
    assert r[1..] == b;
    assert UnirNoVacios(r) == "" + UnirNoVacios(b) == UnirNoVacios(b);
    UnirConcat(a, r);
  }

  /** Once the sheet exists, C3:H3 is read as one row of six cells, so the "unreadable" error cannot occur. */
  lemma RangoCodigoLegible(wb: Option<Workbook>, nombreHoja: string, codigo: string)
    requires SheetOf(wb, nombreHoja).Some?
    ensures var r := ValoresRango(wb, nombreHoja, 3, 3, 8, 3);
      r.Some? && |r.value| == 1 && |r.value[0]| == 6
    ensures ErroresCodigo(ValoresRango(wb, nombreHoja, 3, 3, 8, 3), codigo) == []
      <==> UnirNoVacios(ValoresRango(wb, nombreHoja, 3, 3, 8, 3).value[0]) == codigo
  {
    ValoresRangoUnaFila(wb, nombreHoja, 3, 8, 3);
  }

  /** A reader built from a file name always passes the convention check. */
  lemma ConvencionDeLector(ruta: string, wb: Option<Workbook>)
    requires ParseFileName(ruta).Some?
    ensures var d := ParseFileName(ruta).value;
      ErroresFijos(ruta, wb, d.codigo, d.serie, d.mes) == ErroresHoja(wb, ruta, HojaNombre, d.codigo, d.mes)
  {
  }

  /** Without the NOMBRE sheet there is exactly that one error. */
  lemma SinHojaUnError(ruta: string, wb: Option<Workbook>, codigo: string, serie: string, mes: string)
    requires codigo != "" && serie != "" && mes != ""
    requires SheetOf(wb, HojaNombre).None?
    ensures ErroresFijos(ruta, wb, codigo, serie, mes) == [MissingSheetError(HojaNombre, BaseName(ruta))]
  {
  }

  /** Every check adds at most its own messages: a sheet yields at most six errors. */
  lemma ErroresAcotados(ruta: string, wb: Option<Workbook>, codigo: string, serie: string, mes: string)
    ensures |ErroresFijos(ruta, wb, codigo, serie, mes)| <= 6
  {
    var h := SheetOf(wb, HojaNombre);
    if ErroresConvencion(ruta, codigo, serie, mes) == [] && h.Some? {
      HojaAcotada(ValoresRango(wb, HojaNombre, 3, 3, 8, 3), codigo,
                  LeerCelda(wb, HojaNombre, "B", 2), LeerCelda(wb, HojaNombre, "B", 3),
                  ValoresRango(wb, HojaNombre, 3, 2, 7, 2), LeerCelda(wb, HojaNombre, "B", 6), mes,
                  LeerCelda(wb, HojaNombre, "C", 6), LeerCelda(wb, HojaNombre, "D", 6));
    }
  }

  /** The four sheet checks add at most one, three, one and one messages. */
  lemma HojaAcotada(rc: Option<seq<seq<Value>>>, codigo: string, b2: Value, b3: Value,
                    rr: Option<seq<seq<Value>>>, b6: Value, mes: string, c6: Value, d6: Value)
    ensures |ErroresCodigo(rc, codigo) + ErroresCeldas(b2, b3, rr) + ErroresNombreMes(b6, mes)
             + ErroresNumeroMes(c6, d6, mes)| <= 6
  {
  }

  /** The month number may be split as digits over C6 and D6, whether numbers or text. */
  lemma NumeroMesEjemplos()
    ensures ErroresNumeroMes(Int(0), Int(5), "05") == []
    ensures ErroresNumeroMes(Text("05"), Text(""), "05") == []
    ensures ErroresNumeroMes(Int(5), Empty, "05") == [MonthNumberEmptyError]
    ensures ErroresNumeroMes(Int(5), Int(0), "05") == [MonthNumberMismatchError("05", "50")]
  {
    assert IntToString(0) == "0" && IntToString(5) == "5";
    assert "0" + "5" == "05";
    assert "5" + "0" == "50";
  }

  /** The code alone in C3, with D3:H3 empty, matches. */
  lemma CodigoCorrecto(wb: Option<Workbook>, codigo: string)
    requires SheetOf(wb, HojaNombre).Some?
    requires var h := SheetOf(wb, HojaNombre).value;
      && CellAt(h, "C", 3) == Text(codigo)
      && CellAt(h, "D", 3) == Empty && CellAt(h, "E", 3) == Empty && CellAt(h, "F", 3) == Empty
      && CellAt(h, "G", 3) == Empty && CellAt(h, "H", 3) == Empty
    ensures ErroresCodigo(ValoresRango(wb, HojaNombre, 3, 3, 8, 3), codigo) == []
  {
    ValoresRangoUnaFila(wb, HojaNombre, 3, 8, 3);
    FilaCodigo(SheetOf(wb, HojaNombre).value, codigo);
  }

  /** Row 3 from C to H with only C3 filled joins to C3's text. */
  lemma FilaCodigo(h: Sheet, codigo: string)
    requires CellAt(h, "C", 3) == Text(codigo)
    requires CellAt(h, "D", 3) == Empty && CellAt(h, "E", 3) == Empty && CellAt(h, "F", 3) == Empty
    requires CellAt(h, "G", 3) == Empty && CellAt(h, "H", 3) == Empty
    ensures UnirNoVacios(FilaRango(h, 3, 3, 8)) == codigo
  {
    FilaTres(h);
    var fila3 := FilaRango(h, 3, 3, 8);
    assert fila3[1..] == [Empty, Empty, Empty, Empty, Empty];
    UnirVacias(fila3[1..]);
  }

  /** Row 3 from C to H, cell by cell. */
  lemma FilaTres(h: Sheet)
    ensures FilaRango(h, 3, 3, 8)
      == [CellAt(h, "C", 3), CellAt(h, "D", 3), CellAt(h, "E", 3), CellAt(h, "F", 3), CellAt(h, "G", 3), CellAt(h, "H", 3)]
  {
    ColumnLetters();
    var f := FilaRango(h, 3, 3, 8);
    assert f[0] == CellAt(h, Letters(3), 3) && f[1] == CellAt(h, Letters(4), 3);
    assert f[2] == CellAt(h, Letters(5), 3) && f[3] == CellAt(h, Letters(6), 3);
    assert f[4] == CellAt(h, Letters(7), 3) && f[5] == CellAt(h, Letters(8), 3);
  }

  /** Filled B2, B3 and C2 satisfy the required-cells check. */
  lemma CeldasCorrectas(wb: Option<Workbook>)
    requires SheetOf(wb, HojaNombre).Some?
    requires var h := SheetOf(wb, HojaNombre).value;
      !Vacia(CellAt(h, "B", 2)) && !Vacia(CellAt(h, "B", 3)) && !Vacia(CellAt(h, "C", 2))
    ensures ErroresCeldas(LeerCelda(wb, HojaNombre, "B", 2), LeerCelda(wb, HojaNombre, "B", 3),
                          ValoresRango(wb, HojaNombre, 3, 2, 7, 2)) == []
  {
    ColumnLetters();
    ColumnValuesCGH();
    ValoresRangoUnaFila(wb, HojaNombre, 3, 7, 2);
    var fila2 := ValoresRango(wb, HojaNombre, 3, 2, 7, 2).value[0];
    assert fila2[0] == CellAt(SheetOf(wb, HojaNombre).value, "C", 2);
    assert AlgunaLlena(fila2);
  }

  /** The month's name in any case in B6 satisfies the name check. */
  lemma NombreMesCorrecto(mes: string, nombre: string)
    requires mes in MapaMesesNombre && Upper(nombre) == MapaMesesNombre[mes]
    ensures ErroresNombreMes(Text(nombre), mes) == []
  {
    assert Upper(nombre) != "";
    assert !IsBlank(nombre) by {
      assert !IsSpaceChar(UpperChar(nombre[0]));
    }
  }

  /** The month's two digits as text in C6 and D6 satisfy the number check. */
  lemma NumeroMesCorrecto(mes: string)
    requires |mes| == 2
    ensures ErroresNumeroMes(Text(mes[..1]), Text(mes[1..]), mes) == []
  {
    assert mes[..1] + mes[1..] == mes;
  }

  /**
   * A NOMBRE sheet filled as the report template expects passes every check:
   * the code in C3 with D3:H3 empty, B2, B3 and C2 filled, the month's name
   * in B6 in any case, and its two digits in C6 and D6.
   */
  lemma HojaCorrecta(ruta: string, wb: Option<Workbook>, codigo: string, serie: string, mes: string, nombre: string)
    requires codigo != "" && serie != ""
    requires mes in MapaMesesNombre && Upper(nombre) == MapaMesesNombre[mes]
    requires SheetOf(wb, HojaNombre).Some?
    requires var h := SheetOf(wb, HojaNombre).value;
      && CellAt(h, "C", 3) == Text(codigo)
      && CellAt(h, "D", 3) == Empty && CellAt(h, "E", 3) == Empty && CellAt(h, "F", 3) == Empty
      && CellAt(h, "G", 3) == Empty && CellAt(h, "H", 3) == Empty
      && !Vacia(CellAt(h, "B", 2)) && !Vacia(CellAt(h, "B", 3)) && !Vacia(CellAt(h, "C", 2))
      && CellAt(h, "B", 6) == Text(nombre)
      && CellAt(h, "C", 6) == Text(mes[..1]) && CellAt(h, "D", 6) == Text(mes[1..])
    ensures ErroresFijos(ruta, wb, codigo, serie, mes) == []
  {
    MesCorrecto(wb, mes, nombre);
    assert ErroresConvencion(ruta, codigo, serie, mes) == [];
    CodigoCorrecto(wb, codigo);
    CeldasCorrectas(wb);
    HojaSinErrores(wb, ruta, codigo, mes);
  }

  /** B6 holding the month's name and C6, D6 its two digits pass both month checks. */
  lemma MesCorrecto(wb: Option<Workbook>, mes: string, nombre: string)
    requires mes in MapaMesesNombre && Upper(nombre) == MapaMesesNombre[mes]
    requires SheetOf(wb, HojaNombre).Some?
    requires var h := SheetOf(wb, HojaNombre).value;
      && CellAt(h, "B", 6) == Text(nombre)
      && CellAt(h, "C", 6) == Text(mes[..1]) && CellAt(h, "D", 6) == Text(mes[1..])
    ensures ErroresNombreMes(LeerCelda(wb, HojaNombre, "B", 6), mes) == []
    ensures ErroresNumeroMes(LeerCelda(wb, HojaNombre, "C", 6), LeerCelda(wb, HojaNombre, "D", 6), mes) == []
    ensures |mes| == 2
  {
    assert |mes| == 2;
    NombreMesCorrecto(mes, nombre);
    NumeroMesCorrecto(mes);
  }

  /** The sheet's errors are the four checks' errors: none when each check passes. */
  lemma HojaSinErrores(wb: Option<Workbook>, ruta: string, codigo: string, mes: string)
    requires SheetOf(wb, HojaNombre).Some?
    requires ErroresCodigo(ValoresRango(wb, HojaNombre, 3, 3, 8, 3), codigo) == []
    requires ErroresCeldas(LeerCelda(wb, HojaNombre, "B", 2), LeerCelda(wb, HojaNombre, "B", 3),
                           ValoresRango(wb, HojaNombre, 3, 2, 7, 2)) == []
    requires ErroresNombreMes(LeerCelda(wb, HojaNombre, "B", 6), mes) == []
    requires ErroresNumeroMes(LeerCelda(wb, HojaNombre, "C", 6), LeerCelda(wb, HojaNombre, "D", 6), mes) == []
    ensures ErroresHoja(wb, ruta, HojaNombre, codigo, mes) == []
  {
  }

  /** Columns 3 to 8 are single letters, in alphabet order. */
  lemma ColumnLetters()
    ensures Letters(3) == "C" && Letters(4) == "D" && Letters(5) == "E"
    ensures Letters(6) == "F" && Letters(7) == "G" && Letters(8) == "H"
  {
    SingleLetter(3);
    SingleLetter(4);
    SingleLetter(5);
    SingleLetter(6);
    SingleLetter(7);
    SingleLetter(8);
    assert Alphabet[2] == 'C' && Alphabet[3] == 'D' && Alphabet[4] == 'E';
    assert Alphabet[5] == 'F' && Alphabet[6] == 'G' && Alphabet[7] == 'H';
  }

  /** The columns C, G and H the validator addresses are 3, 7 and 8. */
  lemma ColumnValuesCGH()
    ensures ColumnValue("C") == 3 && ColumnValue("H") == 8 && ColumnValue("G") == 7
  {
    ColumnLetters();
    ColumnValueOfLetters(3);
    ColumnValueOfLetters(7);
    ColumnValueOfLetters(8);
  }

  /** The two fixed ranges the validator reads, C2:G2 and C3:H3, are well formed. */
  lemma RangosFijos()
    ensures RangoValido(CellRef("C", 2), CellRef("G", 2)) && RangoValido(CellRef("C", 3), CellRef("H", 3))
    ensures ColumnValue("C") == 3 && ColumnValue("G") == 7 && ColumnValue("H") == 8
  {
    ColumnLetters();
    ColumnValuesCGH();
    LettersShape(3);
    LettersShape(7);
    LettersShape(8);
  }

  // ---------------------------------------------------------------------
  // The validator object
  // ---------------------------------------------------------------------

  /** `ValidadorFijo`: a reader and the errors found so far. */
  class ValidadorFijo {
    const lector: LectorXLSM
    var errores: seq<string>

    constructor (lector: LectorXLSM)
      ensures this.lector == lector && errores == []
    {
      this.lector := lector;
      errores := [];
    }

    /** `_agregar_error`. */
    method AgregarError(mensaje: string)
      modifies this`errores
      ensures errores == old(errores) + [mensaje]
    {
      errores := errores + [mensaje];
    }

    /** `obtener_errores`. */
    method ObtenerErrores() returns (r: seq<string>)
      ensures r == errores
    {
      return errores;
    }

    /** `validar_todo`: resets the list, then runs the checks; true iff nothing was reported. */
    method ValidarTodo() returns (ok: bool)
      requires lector.Valid()
      modifies this`errores, lector`libro
      ensures lector.Valid()
      ensures ErroresConvencion(lector.rutaArchivo, lector.codigoEstablecimiento, lector.serie, lector.mes) == []
        ==> lector.libro == lector.disco
      ensures ErroresConvencion(lector.rutaArchivo, lector.codigoEstablecimiento, lector.serie, lector.mes) != []
        ==> lector.libro == old(lector.libro)
      ensures errores == ErroresFijos(lector.rutaArchivo, lector.disco, lector.codigoEstablecimiento,
                                      lector.serie, lector.mes)
      ensures ok <==> errores == []
    {
      errores := [];
      var convencion := ValidarConvencionNombreArchivo();
      if !convencion {
        return false;
      }
      ValidarHojaNombre();
      return errores == [];
    }

    /** `_validar_convencion_nombre_archivo`. */
    method ValidarConvencionNombreArchivo() returns (ok: bool)
      modifies this`errores
      ensures ok <==> ErroresConvencion(lector.rutaArchivo, lector.codigoEstablecimiento, lector.serie, lector.mes) == []
      ensures errores == old(errores)
        + ErroresConvencion(lector.rutaArchivo, lector.codigoEstablecimiento, lector.serie, lector.mes)
    {
      if lector.codigoEstablecimiento == "" || lector.serie == "" || lector.mes == "" {
        AgregarError(ConventionError(BaseName(lector.rutaArchivo)));
        return false;
      }
      return true;
    }

    /** `_validar_hoja_nombre`. */
    method ValidarHojaNombre()
      requires lector.Valid()
      modifies this`errores, lector`libro
      ensures lector.Valid() && lector.libro == lector.disco
      ensures errores == old(errores)
        + ErroresHoja(lector.disco, lector.rutaArchivo, HojaNombre, lector.codigoEstablecimiento, lector.mes)
    {
      var nombreHoja := HojaNombre;
      var hoja := lector.ObtenerHoja(nombreHoja);
      if hoja.None? {
        AgregarError(MissingSheetError(nombreHoja, BaseName(lector.rutaArchivo)));
        return;
      }
      ghost var e0 := errores;
      ghost var wb, codigo, mes := lector.disco, lector.codigoEstablecimiento, lector.mes;
      ghost var a := ErroresCodigo(ValoresRango(wb, nombreHoja, 3, 3, 8, 3), codigo);
      ghost var b := ErroresCeldas(LeerCelda(wb, nombreHoja, "B", 2), LeerCelda(wb, nombreHoja, "B", 3),
                                   ValoresRango(wb, nombreHoja, 3, 2, 7, 2));
      ghost var c := ErroresNombreMes(LeerCelda(wb, nombreHoja, "B", 6), mes);
      ghost var d := ErroresNumeroMes(LeerCelda(wb, nombreHoja, "C", 6), LeerCelda(wb, nombreHoja, "D", 6), mes);
      ValidarCodigoEstablecimiento(nombreHoja);
      ValidarCeldasRequeridas(nombreHoja);
      ValidarNombreMes(nombreHoja);
      ValidarNumeroMes(nombreHoja);
      AgregarCuatro(e0, a, b, c, d);
      ErroresHojaPresente(wb, lector.rutaArchivo, nombreHoja, codigo, mes);
    }

    /** `_validar_codigo_establecimiento`. */
    method ValidarCodigoEstablecimiento(nombreHoja: string)
      requires lector.Valid()
      modifies this`errores, lector`libro
      ensures lector.Valid() && lector.libro == lector.disco
      ensures errores == old(errores)
        + ErroresCodigo(ValoresRango(lector.disco, nombreHoja, 3, 3, 8, 3), lector.codigoEstablecimiento)
    {
      RangosFijos();
      var valoresRango := lector.ObtenerValoresRango(nombreHoja, CellRef("C", 3), CellRef("H", 3));
      assert valoresRango == ValoresRango(lector.disco, nombreHoja, 3, 3, 8, 3);
      if valoresRango.None? || valoresRango.value == [] || valoresRango.value[0] == [] {
        AgregarError(RangeUnreadableError);
        return;
      }
      var codigoDesdeCeldas := UnirNoVacios(valoresRango.value[0]);
      if codigoDesdeCeldas != lector.codigoEstablecimiento {
        AgregarError(CodeMismatchError(lector.codigoEstablecimiento, codigoDesdeCeldas));
      }
    }

    /** `_validar_celdas_requeridas`: B2 and B3 one by one, then the range C2:G2. */
    method ValidarCeldasRequeridas(nombreHoja: string)
      requires lector.Valid()
      modifies this`errores, lector`libro
      ensures lector.Valid() && lector.libro == lector.disco
      ensures errores == old(errores)
        + ErroresCeldas(LeerCelda(lector.disco, nombreHoja, "B", 2), LeerCelda(lector.disco, nombreHoja, "B", 3),
                        ValoresRango(lector.disco, nombreHoja, 3, 2, 7, 2))
    {
      ValidarCeldasSueltas(nombreHoja);
      ValidarRangoRequerido(nombreHoja);
    }

    /** The range check of `_validar_celdas_requeridas`: C2:G2 must hold a non-empty cell in its first row. */
    method ValidarRangoRequerido(nombreHoja: string)
      requires lector.Valid()
      modifies this`errores, lector`libro
      ensures lector.Valid() && lector.libro == lector.disco
      ensures errores == old(errores)
        + (var rango := ValoresRango(lector.disco, nombreHoja, 3, 2, 7, 2);
           if rango.None? || rango.value == [] || !AlgunaLlena(rango.value[0]) then [RequiredRangeError] else [])
    {
      RangosFijos();
      var valoresRango := lector.ObtenerValoresRango(nombreHoja, CellRef("C", 2), CellRef("G", 2));
      if valoresRango.None? || valoresRango.value == [] || !AlgunaLlena(valoresRango.value[0]) {
        AgregarError(RequiredRangeError);
      }
    }

    /** The loop over `CELDAS_REQUERIDAS` of `_validar_celdas_requeridas`. */
    method ValidarCeldasSueltas(nombreHoja: string)
      requires lector.Valid()
      modifies this`errores, lector`libro
      ensures lector.Valid() && lector.libro == lector.disco
      ensures errores == old(errores)
        + (if Vacia(LeerCelda(lector.disco, nombreHoja, "B", 2)) then [RequiredCellError("B2")] else [])
        + (if Vacia(LeerCelda(lector.disco, nombreHoja, "B", 3)) then [RequiredCellError("B3")] else [])
    {
      ghost var celdas := [LeerCelda(lector.disco, nombreHoja, "B", 2), LeerCelda(lector.disco, nombreHoja, "B", 3)];
      ghost var e0 := errores;
      for i := 0 to |CeldasRequeridas|
        invariant lector.Valid()
        invariant 0 < i ==> lector.libro == lector.disco
        invariant errores == e0 + ErroresCeldasHasta(celdas, i)
      {
        var refCelda := CeldasRequeridas[i];
        RefCeldaPartes(i);
        var leido := lector.ObtenerValorCelda(nombreHoja, DigitsValue(refCelda[1..]), Some([refCelda[0]]), None);
        var valor := leido.value;
        assert valor == celdas[i];
        if valor.Empty? || IsBlank(Render(valor)) {
          AgregarError(RequiredCellError(refCelda));
        }
      }
      assert ErroresCeldasHasta(celdas, 2)
        == ErroresCeldasHasta(celdas, 1) + (if Vacia(celdas[1]) then [RequiredCellError("B3")] else []);
    }

    /** `_validar_nombre_mes`. */
    method ValidarNombreMes(nombreHoja: string)
      requires lector.Valid()
      modifies this`errores, lector`libro
      ensures lector.Valid() && lector.libro == lector.disco
      ensures errores == old(errores) + ErroresNombreMes(LeerCelda(lector.disco, nombreHoja, "B", 6), lector.mes)
    {
      var leido := lector.ObtenerValorCelda(nombreHoja, 6, Some("B"), None);
      var nombreMesCelda := leido.value;
      if !Truthy(nombreMesCelda) || IsBlank(Render(nombreMesCelda)) {
        AgregarError(MonthNameEmptyError);
        return;
      }
      var numeroMesEsperado := lector.mes;
      var nombreMesEsperado := NombreEsperado(numeroMesEsperado);
      if nombreMesEsperado.None? || Upper(Render(nombreMesCelda)) != nombreMesEsperado.value {
        AgregarError(MonthNameMismatchError(numeroMesEsperado, nombreMesEsperado, nombreMesCelda));
      }
    }

    /** `_validar_numero_mes`. */
    method ValidarNumeroMes(nombreHoja: string)
      requires lector.Valid()
      modifies this`errores, lector`libro
      ensures lector.Valid() && lector.libro == lector.disco
      ensures errores == old(errores)
        + ErroresNumeroMes(LeerCelda(lector.disco, nombreHoja, "C", 6), LeerCelda(lector.disco, nombreHoja, "D", 6),
                           lector.mes)
    {
      var numeroMesArchivo := lector.mes;
      var leidoC6 := lector.ObtenerValorCelda(nombreHoja, 6, Some("C"), None);
      var leidoD6 := lector.ObtenerValorCelda(nombreHoja, 6, Some("D"), None);
      var valC6, valD6 := leidoC6.value, leidoD6.value;
      if valC6.Empty? || valD6.Empty? {
        AgregarError(MonthNumberEmptyError);
        return;
      }
      var mesDesdeCeldas := Render(valC6) + Render(valD6);
      if mesDesdeCeldas != numeroMesArchivo {
        AgregarError(MonthNumberMismatchError(numeroMesArchivo, mesDesdeCeldas));
      }
    }
  }

  /** On a present sheet, the errors are those of the four checks in order. */
  lemma ErroresHojaPresente(wb: Option<Workbook>, ruta: string, nombreHoja: string, codigo: string, mes: string)
    requires SheetOf(wb, nombreHoja).Some?
    ensures ErroresHoja(wb, ruta, nombreHoja, codigo, mes)
      == ErroresCodigo(ValoresRango(wb, nombreHoja, 3, 3, 8, 3), codigo)
         + ErroresCeldas(LeerCelda(wb, nombreHoja, "B", 2), LeerCelda(wb, nombreHoja, "B", 3),
                         ValoresRango(wb, nombreHoja, 3, 2, 7, 2))
         + ErroresNombreMes(LeerCelda(wb, nombreHoja, "B", 6), mes)
         + ErroresNumeroMes(LeerCelda(wb, nombreHoja, "C", 6), LeerCelda(wb, nombreHoja, "D", 6), mes)
  {
  }

  /** Appending four lists one after another appends their concatenation. */
  lemma AgregarCuatro(e0: seq<string>, a: seq<string>, b: seq<string>, c: seq<string>, d: seq<string>)
    ensures e0 + a + b + c + d == e0 + (a + b + c + d)
  {
  }

  /** The column letter and the row number of the `i`-th required cell. */
  lemma RefCeldaPartes(i: nat)
    requires i < |CeldasRequeridas|
    ensures |CeldasRequeridas[i]| == 2 && CeldasRequeridas[i][0] == 'B'
    ensures AllDigits(CeldasRequeridas[i][1..]) && DigitsValue(CeldasRequeridas[i][1..]) == i + 2
  {
    var r := CeldasRequeridas[i][1..];
    assert r == [CeldasRequeridas[i][1]];
    assert r[..0] == [];
  }

  /** The messages for the first `n` required cells, in order. */
  function ErroresCeldasHasta(celdas: seq<Value>, n: nat): seq<string>
    requires n <= |celdas| && n <= |CeldasRequeridas|
  {
    if n == 0 then []
    else ErroresCeldasHasta(celdas, n - 1)
         + (if Vacia(celdas[n - 1]) then [RequiredCellError(CeldasRequeridas[n - 1])] else [])
  }
}
