/**
 * `src/xlsm_parser.py`: the report file name `<digits><letters><2 digits>.xlsm`
 * and `LectorXLSM`, the reader of one workbook.
 *
 * The workbook is a value: a map from sheet name to a sheet, and a sheet a
 * map from cell address to value (an address not in the map reads as
 * `None`, as an empty cell does). What `load_workbook` would read from the
 * file is given to the reader as `disco`; `None` there means loading fails.
 */
module XlsmParser {
  import opened Wrappers
  import opened Values
  import opened Utils

  // ---------------------------------------------------------------------
  // File name
  // ---------------------------------------------------------------------

  /** The three groups of `(\d+)([A-Z]+)(\d{2})\.xlsm`, the series upper-cased. */
  datatype DatosArchivo = DatosArchivo(codigo: string, serie: string, mes: string)

  /** `os.path.basename` on a POSIX path: what follows the last '/'. */
  function BaseName(ruta: string): (r: string)
    ensures forall k :: 0 <= k < |r| ==> r[k] != '/'
    ensures (forall k :: 0 <= k < |ruta| ==> ruta[k] != '/') ==> r == ruta
  {
    if ruta == [] then []
    else if ruta[|ruta| - 1] == '/' then []
    else BaseName(ruta[..|ruta| - 1]) + [ruta[|ruta| - 1]]
  }

  /** Length of the longest prefix of ASCII digits. */
  function DigitRun(s: string): (n: nat)
    ensures n <= |s| && AllDigits(s[..n])
    ensures n < |s| ==> !IsDigitChar(s[n])
  {
    if s == [] || !IsDigitChar(s[0]) then 0
    else
      var n := 1 + DigitRun(s[1..]);
      assert s[..n] == [s[0]] + s[1..][..n - 1];
      n
  }

  /** Length of the longest prefix of ASCII letters (`[A-Z]` under IGNORECASE). */
  function LetterRun(s: string): (n: nat)
    ensures n <= |s|
    ensures forall k :: 0 <= k < n ==> IsLetterChar(s[k])
    ensures n < |s| ==> !IsLetterChar(s[n])
  {
    if s == [] || !IsLetterChar(s[0]) then 0 else 1 + LetterRun(s[1..])
  }

  /**
   * `re.match(r"(\d+)([A-Z]+)(\d{2})\.xlsm", nombre, re.IGNORECASE)`. The
   * three character classes are disjoint, so the greedy runs are the only
   * way to match: the code is the whole digit run, the series the whole
   * letter run, then exactly two digits and ".xlsm" in any case. Only the
   * start is anchored; anything may follow.
   */
  function ParseBaseName(nombre: string): (r: Option<DatosArchivo>)
    ensures r.Some? ==> |r.value.codigo| > 0 && |r.value.serie| > 0 && |r.value.mes| == 2
  {
    var d := DigitRun(nombre);
    var resto := nombre[d..];
    var l := LetterRun(resto);
    var cola := resto[l..];
    if d == 0 || l == 0 || |cola| < 7 || !IsDigitChar(cola[0]) || !IsDigitChar(cola[1])
       || Lower(cola[2..7]) != ".xlsm"
    then None
    else Some(DatosArchivo(nombre[..d], Upper(resto[..l]), cola[..2]))
  }

  /**
   * What a successful parse says about the name: it starts with the code
   * (all digits), then the series as written (letters, which the result
   * holds upper-cased), then the two month digits and ".xlsm" in any case.
   */
  lemma ParseSound(nombre: string)
    requires ParseBaseName(nombre).Some?
    ensures var k := ParseBaseName(nombre).value;
      var n1 := |k.codigo|;
      var n2 := n1 + |k.serie|;
      && AllDigits(k.codigo) && IsAlpha(k.serie) && NoLower(k.serie) && AllDigits(k.mes)
      && n2 + 7 <= |nombre|
      && nombre[..n1] == k.codigo
      && Upper(nombre[n1..n2]) == k.serie
      && nombre[n2..n2 + 2] == k.mes
      && Lower(nombre[n2 + 2..n2 + 7]) == ".xlsm"
  {
    var d := DigitRun(nombre);
    var resto := nombre[d..];
    var l := LetterRun(resto);
    var cola := resto[l..];
    UpperIdempotent(resto[..l]);
    UpperKeepsAlpha(resto[..l]);
    assert nombre[d..d + l] == resto[..l];
    assert nombre[d + l..d + l + 2] == cola[..2];
    assert nombre[d + l + 2..d + l + 7] == cola[2..7];
  }

  /** `_parsear_nombre_archivo`: only the base name of the path is matched. */
  function ParseFileName(ruta: string): Option<DatosArchivo>
  {
    ParseBaseName(BaseName(ruta))
  }

  lemma {:induction false} DigitRunOf(a: string, b: string)
    requires AllDigits(a)
    requires b == [] || !IsDigitChar(b[0])
    ensures DigitRun(a + b) == |a|
  {
    if a != [] {
      assert (a + b)[1..] == a[1..] + b;
      DigitRunOf(a[1..], b);
    }
  }

  lemma {:induction false} LetterRunOf(a: string, b: string)
    requires forall k :: 0 <= k < |a| ==> IsLetterChar(a[k])
    requires b == [] || !IsLetterChar(b[0])
    ensures LetterRun(a + b) == |a|
  {
    if a != [] {
      assert (a + b)[1..] == a[1..] + b;
      LetterRunOf(a[1..], b);
    }
  }

  /**
   * Every name of the expected shape parses, and to exactly its own parts:
   * the code keeps its leading zeros and the series is upper-cased.
   */
  lemma ParseComposed(codigo: string, serie: string, mes: string, ext: string, resto: string)
    requires |codigo| > 0 && AllDigits(codigo)
    requires IsAlpha(serie)
    requires |mes| == 2 && AllDigits(mes)
    requires Lower(ext) == ".xlsm"
    ensures ParseBaseName(codigo + serie + mes + ext + resto) == Some(DatosArchivo(codigo, Upper(serie), mes))
  {
    var cola := mes + ext + resto;
    assert codigo + serie + mes + ext + resto == codigo + serie + cola;
    ParseRuns(codigo, serie, cola);
    assert cola[..2] == mes;
    assert cola[2..7] == ext;
  }

  /** The name the source's own comments give as an example. */
  lemma ParseExample()
    ensures ParseBaseName("116322A05.xlsm") == Some(DatosArchivo("116322", "A", "05"))
  {
    PartesEjemplo();
    ParseComposed("116322", "A", "05", ".xlsm", "");
  }

  lemma PartesEjemplo()
    ensures |"116322"| > 0 && AllDigits("116322") && IsAlpha("A") && AllDigits("05")
    ensures Lower(".xlsm") == ".xlsm" && Upper("A") == "A"
    ensures "116322" + "A" + "05" + ".xlsm" + "" == "116322A05.xlsm"
  {
  }

  /** The series and the extension match in any case; the series comes back upper-cased. */
  lemma ParseExampleMixedCase()
    ensures ParseBaseName("0116322bm12.XLSM") == Some(DatosArchivo("0116322", "BM", "12"))
  {
    PartesMixtas();
    ParseComposed("0116322", "bm", "12", ".XLSM", "");
  }

  lemma PartesMixtas()
    ensures |"0116322"| > 0 && AllDigits("0116322") && IsAlpha("bm") && AllDigits("12")
    ensures Lower(".XLSM") == ".xlsm" && Upper("bm") == "BM"
    ensures "0116322" + "bm" + "12" + ".XLSM" + "" == "0116322bm12.XLSM"
  {
  }

  /** The directory part of a path is ignored. */
  lemma ParseExamplePath()
    ensures ParseFileName("original/116322A05.xlsm") == Some(DatosArchivo("116322", "A", "05"))
  {
    BaseNameAfterSlash("original/", "116322A05.xlsm");
    assert "original/" + "116322A05.xlsm" == "original/116322A05.xlsm";
    ParseExample();
  }

  /** The base name of a path under a directory is the entry's own name. */
  lemma {:induction false} BaseNameAfterSlash(dir: string, nombre: string)
    requires dir == [] || dir[|dir| - 1] == '/'
    requires forall k :: 0 <= k < |nombre| ==> nombre[k] != '/'
    ensures BaseName(dir + nombre) == nombre
  {
    if nombre != [] {
      var p, c := nombre[..|nombre| - 1], nombre[|nombre| - 1];
      BaseNameAfterSlash(dir, p);
      assert nombre == p + [c];
      BaseNameAfterSlashPaso(dir, p, c);
    } else if dir != [] {
      assert dir + nombre == dir;
    }
  }

  /** One more non-slash character after the directory stays in the base name. */
  lemma BaseNameAfterSlashPaso(dir: string, p: string, c: char)
    requires c != '/' && BaseName(dir + p) == p
    ensures BaseName(dir + (p + [c])) == p + [c]
  {
    var s := dir + (p + [c]);
    assert s[..|s| - 1] == dir + p;
  }

  /** `os.path.join(dir, nombre)` for a relative `nombre`. */
  function PathJoin(dir: string, nombre: string): string
  {
    (if dir == [] || dir[|dir| - 1] == '/' then dir else dir + "/") + nombre
  }

  /** Joining a directory entry to its directory and taking the base name gives the entry back. */
  lemma BaseNameOfJoin(dir: string, nombre: string)
    requires forall k :: 0 <= k < |nombre| ==> nombre[k] != '/'
    ensures BaseName(PathJoin(dir, nombre)) == nombre
  {
    var prefijo := if dir == [] || dir[|dir| - 1] == '/' then dir else dir + "/";
    BaseNameAfterSlash(prefijo, nombre);
  }

  /**
   * A name that starts with a digit run followed by a letter run is decided
   * by what follows the letters alone.
   */
  lemma ParseRuns(codigo: string, serie: string, cola: string)
    requires |codigo| > 0 && AllDigits(codigo)
    requires IsAlpha(serie)
    requires cola == [] || !IsLetterChar(cola[0])
    ensures ParseBaseName(codigo + serie + cola) ==
      if |cola| < 7 || !IsDigitChar(cola[0]) || !IsDigitChar(cola[1]) || Lower(cola[2..7]) != ".xlsm" then None
      else Some(DatosArchivo(codigo, Upper(serie), cola[..2]))
  {
    var nombre := codigo + serie + cola;
    var tras := serie + cola;
    assert nombre == codigo + tras;
    DigitRunOf(codigo, tras);
    assert nombre[|codigo|..] == tras;
    assert nombre[..|codigo|] == codigo;
    LetterRunOf(serie, cola);
    assert tras[..|serie|] == serie;
    assert tras[|serie|..] == cola;
  }

  /** A one-digit month is rejected. */
  lemma ParseRejectsShortMonth()
    ensures ParseBaseName("116322A5.xlsm").None?
  {
    assert AllDigits("116322") && IsAlpha("A");
    ParseRuns("116322", "A", "5.xlsm");
    assert "116322" + "A" + "5.xlsm" == "116322A5.xlsm";
  }

  /** A three-digit month is rejected: the two digits must be followed by the dot. */
  lemma ParseRejectsLongMonth()
    ensures ParseBaseName("116322A005.xlsm").None?
  {
    assert AllDigits("116322") && IsAlpha("A");
    ParseRuns("116322", "A", "005.xlsm");
    assert "116322" + "A" + "005.xlsm" == "116322A005.xlsm";
    assert Lower("005.xlsm"[2..7])[0] == '5';
  }

  /** A name without the leading code is rejected. */
  lemma ParseRejectsNoCode()
    ensures ParseBaseName("A05.xlsm").None?
  {
    assert DigitRun("A05.xlsm") == 0;
  }

  /** Another extension is rejected. */
  lemma ParseRejectsExtension()
    ensures ParseBaseName("116322A05.xlsx").None?
  {
    assert AllDigits("116322") && IsAlpha("A");
    ParseRuns("116322", "A", "05.xlsx");
    assert "116322" + "A" + "05.xlsx" == "116322A05.xlsx";
    assert Lower("05.xlsx"[2..7])[4] == 'x';
  }

  // ---------------------------------------------------------------------
  // Workbook
  // ---------------------------------------------------------------------

  /** A cell address: column letters and 1-based row. */
  datatype CellRef = CellRef(col: string, row: int)

  type Sheet = map<CellRef, Value>

  type Workbook = map<string, Sheet>

  const NoColumnError: Error := ValueError("Se debe proporcionar 'letra_col' o 'indice_col'.")

  /** The sheet `nombreHoja` of a workbook that may have failed to load. */
  function SheetOf(wb: Option<Workbook>, nombreHoja: string): (r: Option<Sheet>)
    ensures r.Some? <==> wb.Some? && nombreHoja in wb.value
  {
    if wb.Some? && nombreHoja in wb.value then Some(wb.value[nombreHoja]) else None
  }

  /** `hoja[col + str(row)].value`: an address outside the map is an empty cell. */
  function CellAt(hoja: Sheet, col: string, fila: int): Value
  {
    if CellRef(col, fila) in hoja then hoja[CellRef(col, fila)] else Empty
  }

  /**
   * What `obtener_valor_celda` returns: `None` without the sheet; otherwise
   * a non-empty `letra_col` wins, a non-zero `indice_col` is converted to
   * letters (raising below 1), and with neither it raises.
   */
  function ValorCelda(wb: Option<Workbook>, nombreHoja: string, fila: int,
                      letraCol: Option<string>, indiceCol: Option<int>): Result<Value, Error>
  {
    match SheetOf(wb, nombreHoja)
    case None => Ok(Empty)
    case Some(hoja) =>
      if letraCol.Some? && letraCol.value != "" then Ok(CellAt(hoja, letraCol.value, fila))
      else if indiceCol.Some? && indiceCol.value != 0 then
        if indiceCol.value < 1 then Err(InvalidIndexError)
        else Ok(CellAt(hoja, Letters(indiceCol.value), fila))
      else Err(NoColumnError)
  }

  /** What `obtener_valor_celda(nombreHoja, fila, letra_col=col)` returns: it never raises. */
  function LeerCelda(wb: Option<Workbook>, nombreHoja: string, col: string, fila: int): (r: Value)
    ensures col != "" ==> ValorCelda(wb, nombreHoja, fila, Some(col), None) == Ok(r)
    ensures SheetOf(wb, nombreHoja).None? ==> r == Empty
  {
    match SheetOf(wb, nombreHoja)
    case None => Empty
    case Some(hoja) => CellAt(hoja, col, fila)
  }

  /** The cases of `obtener_valor_celda` as a caller sees them. */
  lemma ValorCeldaCases(wb: Option<Workbook>, nombreHoja: string, fila: int, letra: string, indice: int)
    ensures SheetOf(wb, nombreHoja).None? ==>
      ValorCelda(wb, nombreHoja, fila, None, None) == Ok(Empty)
    ensures letra != "" ==>
      ValorCelda(wb, nombreHoja, fila, Some(letra), Some(indice)) == ValorCelda(wb, nombreHoja, fila, Some(letra), None)
    ensures indice >= 1 ==>
      ValorCelda(wb, nombreHoja, fila, None, Some(indice)) == ValorCelda(wb, nombreHoja, fila, Some(Letters(indice)), None)
    ensures SheetOf(wb, nombreHoja).Some? ==>
      ValorCelda(wb, nombreHoja, fila, Some(""), Some(0)) == Err(NoColumnError)
    ensures letra != "" ==> ValorCelda(wb, nombreHoja, fila, Some(letra), None).Ok?
  {
    if indice >= 1 {
      LettersShape(indice);
    }
  }

  /** A range accepted by `hoja[inicio:fin]`: upper-case columns and rows in order. */
  predicate RangoValido(inicio: CellRef, fin: CellRef) {
    && |inicio.col| > 0 && AllUpperLetters(inicio.col)
    && |fin.col| > 0 && AllUpperLetters(fin.col)
    && 1 <= ColumnValue(inicio.col) <= ColumnValue(fin.col)
    && 1 <= inicio.row <= fin.row
  }

  /** One row of a range: the cells from column `c0` to `c1` inclusive. */
  function FilaRango(hoja: Sheet, fila: int, c0: int, c1: int): (r: seq<Value>)
    requires 1 <= c0 <= c1 + 1
    ensures |r| == c1 - c0 + 1
    ensures forall j :: 0 <= j < |r| ==> r[j] == CellAt(hoja, Letters(c0 + j), fila)
  {
    seq(c1 - c0 + 1, j requires 0 <= j < c1 - c0 + 1 => CellAt(hoja, Letters(c0 + j), fila))
  }

  /**
   * What `obtener_valores_rango` returns for columns `c0..c1` and rows
   * `f0..f1`: `None` without the sheet, else one row of values per row.
   */
  function ValoresRango(wb: Option<Workbook>, nombreHoja: string, c0: int, f0: int, c1: int, f1: int)
    : (r: Option<seq<seq<Value>>>)
    requires 1 <= c0 <= c1 && f0 <= f1
    ensures r.Some? <==> SheetOf(wb, nombreHoja).Some?
    ensures r.Some? ==> |r.value| == f1 - f0 + 1
    ensures r.Some? ==> forall i :: 0 <= i < |r.value| ==> |r.value[i]| == c1 - c0 + 1
    ensures r.Some? ==> forall i, j :: 0 <= i < |r.value| && 0 <= j < |r.value[i]| ==>
      r.value[i][j] == CellAt(SheetOf(wb, nombreHoja).value, Letters(c0 + j), f0 + i)
  {
    match SheetOf(wb, nombreHoja)
    case None => None
    case Some(hoja) =>
      var filas := seq(f1 - f0 + 1, i requires 0 <= i < f1 - f0 + 1 => FilaRango(hoja, f0 + i, c0, c1));
      assert forall i :: 0 <= i < |filas| ==> filas[i] == FilaRango(hoja, f0 + i, c0, c1);
      Some(filas)
  }

  /** A one-row range read from an existing sheet is one row holding every addressed cell. */
  lemma ValoresRangoUnaFila(wb: Option<Workbook>, nombreHoja: string, c0: int, c1: int, f: int)
    requires 1 <= c0 <= c1
    requires SheetOf(wb, nombreHoja).Some?
    ensures var r := ValoresRango(wb, nombreHoja, c0, f, c1, f);
      && r.Some? && |r.value| == 1
      && r.value[0] == FilaRango(SheetOf(wb, nombreHoja).value, f, c0, c1)
  {
  }

  /** `LectorXLSM`: the parsed file name, and the workbook once loaded. */
  class LectorXLSM {
    const rutaArchivo: string
    /** What `load_workbook(rutaArchivo)` reads; `None` when it raises. */
    const disco: Option<Workbook>
    var libro: Option<Workbook>
    const codigoEstablecimiento: string
    const serie: string
    const mes: string

    /** `libro` is only ever what loading the file gives, or nothing. */
    ghost predicate Valid()
      reads this
    {
      libro.None? || libro == disco
    }

    /** The fields set from a name that parsed; `NuevoLector` is the raising entry point. */
    constructor (ruta: string, disco: Option<Workbook>)
      requires ParseFileName(ruta).Some?
      ensures Valid() && libro.None?
      ensures rutaArchivo == ruta && this.disco == disco
      ensures codigoEstablecimiento == ParseFileName(ruta).value.codigo
      ensures serie == ParseFileName(ruta).value.serie
      ensures mes == ParseFileName(ruta).value.mes
    {
      var datos := ParseFileName(ruta).value;
      rutaArchivo := ruta;
      this.disco := disco;
      libro := None;
      codigoEstablecimiento := datos.codigo;
      serie := datos.serie;
      mes := datos.mes;
    }

    /** `cargar_libro`: `libro` becomes the loaded workbook, or `None` when loading raises. */
    method CargarLibro()
      modifies this`libro
      ensures Valid() && libro == disco
    {
      libro := disco;
    }

    /** `obtener_hoja`: loads on first use, then looks the sheet up by name. */
    method ObtenerHoja(nombreHoja: string) returns (hoja: Option<Sheet>)
      requires Valid()
      modifies this`libro
      ensures Valid()
      ensures libro == if old(libro).None? then disco else old(libro)
      ensures hoja == SheetOf(disco, nombreHoja)
    {
      if libro.None? {
        CargarLibro();
      }
      if libro.Some? && nombreHoja in libro.value {
        return Some(libro.value[nombreHoja]);
      }
      return None;
    }

    /** `obtener_valor_celda`. */
    method ObtenerValorCelda(nombreHoja: string, fila: int, letraCol: Option<string>, indiceCol: Option<int>)
      returns (r: Result<Value, Error>)
      requires Valid()
      modifies this`libro
      ensures Valid() && libro == disco
      ensures r == ValorCelda(disco, nombreHoja, fila, letraCol, indiceCol)
    {
      var hoja := ObtenerHoja(nombreHoja);
      if hoja.None? {
        return Ok(Empty);
      }
      var letra: string;
      if letraCol.Some? && letraCol.value != "" {
        letra := letraCol.value;
      } else if indiceCol.Some? && indiceCol.value != 0 {
        letra :- ColumnaALetraExcel(indiceCol.value);
      } else {
        return Err(NoColumnError);
      }
      return Ok(CellAt(hoja.value, letra, fila));
    }

    /** `obtener_valores_rango`: the rows of the range, each built cell by cell. */
    method ObtenerValoresRango(nombreHoja: string, inicio: CellRef, fin: CellRef)
      returns (r: Option<seq<seq<Value>>>)
      requires Valid() && RangoValido(inicio, fin)
      modifies this`libro
      ensures Valid() && libro == disco
      ensures r == ValoresRango(disco, nombreHoja, ColumnValue(inicio.col), inicio.row, ColumnValue(fin.col), fin.row)
    {
      var hoja := ObtenerHoja(nombreHoja);
      if hoja.None? {
        return None;
      }
      var c0, c1 := ColumnValue(inicio.col), ColumnValue(fin.col);
      var valores: seq<seq<Value>> := [];
      for f := inicio.row to fin.row + 1
        invariant |valores| == f - inicio.row
        invariant forall i :: 0 <= i < |valores| ==> valores[i] == FilaRango(hoja.value, inicio.row + i, c0, c1)
      {
        var valoresFila := FilaRango(hoja.value, f, c0, c1);
        valores := valores + [valoresFila];
      }
      ghost var esperado := ValoresRango(disco, nombreHoja, c0, inicio.row, c1, fin.row).value;
      assert |valores| == |esperado|;
      assert forall i :: 0 <= i < |valores| ==> valores[i] == esperado[i];
      assert valores == esperado;
      return Some(valores);
    }

    /** `cerrar_libro`: closes an open workbook; on a closed one it does nothing. */
    method CerrarLibro()
      modifies this`libro
      ensures Valid() && libro.None?
      ensures old(libro).None? ==> unchanged(this)
    {
      if libro.Some? {
        libro := None;
      }
    }
  }

  /** `LectorXLSM(ruta)`: raises `ValueError` for a name that does not parse. */
  method NuevoLector(ruta: string, disco: Option<Workbook>) returns (r: Result<LectorXLSM, Error>)
    ensures r.Ok? <==> ParseFileName(ruta).Some?
    ensures r.Err? ==> r.error == ValueError("El nombre del archivo no coincide con el formato esperado: " + BaseName(ruta))
    ensures r.Ok? ==> fresh(r.value) && r.value.Valid() && r.value.libro.None?
    ensures r.Ok? ==> r.value.rutaArchivo == ruta && r.value.disco == disco
    ensures r.Ok? ==> DatosArchivo(r.value.codigoEstablecimiento, r.value.serie, r.value.mes) == ParseFileName(ruta).value
  {
    if ParseFileName(ruta).None? {
      return Err(ValueError("El nombre del archivo no coincide con el formato esperado: " + BaseName(ruta)));
    }
    var lector := new LectorXLSM(ruta, disco);
    return Ok(lector);
  }
}
