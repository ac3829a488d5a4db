/**
 * `src/glosa_parser.py`: the per-series tables of `(codigo, texto, hoja,
 * linea, inicio, ...)` rows that say where each prestación is in a report.
 *
 * Reading a table (pandas) is not modelled: the rows a read yields are
 * given to the loader, `None` when pandas raises (an unreadable file, or
 * fewer than ten columns). What the model keeps is the series key derived
 * from the file name, the extension and name filters, the store of tables
 * by key, and the first-match lookup by code.
 */
module GlosaParser {
  import opened Wrappers
  import opened Values
  import opened XlsmParser

  /** One row of a glosa table, its ten columns renamed as the loader does. */
  datatype GlosaRow = GlosaRow(
    codigoPrestacion: string,
    textoPrestacion: string,
    serie: Value,
    year: Value,
    tipodato: Value,
    posicion: Value,
    hoja: string,
    linea: int,
    inicio: int,
    fin: Value)

  /** `LectorGlosa.glosas`: a table per upper-cased series. */
  type Glosas = map<string, seq<GlosaRow>>

  const Prefijo: string := "GLOSA_S"

  // ---------------------------------------------------------------------
  // Series key and extension
  // ---------------------------------------------------------------------

  /** `s.replace("GLOSA_S", "")`: occurrences removed left to right, without overlap. */
  function QuitarPrefijo(s: string): (r: string)
    ensures |r| <= |s|
    decreases |s|
  {
    if |s| < |Prefijo| then s
    else if s[..|Prefijo|] == Prefijo then QuitarPrefijo(s[|Prefijo|..])
    else [s[0]] + QuitarPrefijo(s[1..])
  }

  /** `s.split(".")[0]`: the longest prefix without a '.'. */
  function AntesDelPunto(s: string): (r: string)
    ensures |r| <= |s| && r == s[..|r|]
    ensures forall k :: 0 <= k < |r| ==> r[k] != '.'
    ensures |r| < |s| ==> s[|r|] == '.'
  {
    if s == [] || s[0] == '.' then [] else [s[0]] + AntesDelPunto(s[1..])
  }

  /** The key `cargar_archivo_glosa` stores a table under. */
  function SerieDeArchivo(ruta: string): (r: string)
    ensures NoLower(r)
    ensures forall k :: 0 <= k < |r| ==> r[k] != '.'
  {
    Upper(AntesDelPunto(QuitarPrefijo(BaseName(ruta))))
  }

  /** The position of the last '.' of `s`, if any. */
  function UltimoPunto(s: string): (r: Option<nat>)
    ensures r.Some? ==> r.value < |s| && s[r.value] == '.'
    ensures r.Some? ==> forall k :: r.value < k < |s| ==> s[k] != '.'
    ensures r.None? ==> forall k :: 0 <= k < |s| ==> s[k] != '.'
  {
    if s == [] then None
    else if s[|s| - 1] == '.' then Some(|s| - 1)
    else UltimoPunto(s[..|s| - 1])
  }

  predicate SoloPuntos(s: string) {
    forall k :: 0 <= k < |s| ==> s[k] == '.'
  }

  /**
   * `os.path.splitext(ruta)[1].lower()`: from the last '.' of the base name
   * on, lower-cased; empty when there is no '.', or when only dots precede
   * it (a leading dot starts a hidden name, not an extension).
   */
  function Extension(ruta: string): string
  {
    var b := BaseName(ruta);
    match UltimoPunto(b)
    case None => ""
    case Some(d) => if SoloPuntos(b[..d]) then "" else Lower(b[d..])
  }

  /** The extensions `cargar_archivo_glosa` reads; anything else is skipped. */
  predicate ExtensionSoportada(e: string) {
    e == ".xlsx" || e == ".xlsm" || e == ".xls"
  }

  /** The filter `cargar_todas_glosas` applies to directory entries; case matters. */
  predicate EsArchivoGlosa(nombre: string) {
    StartsWith(nombre, Prefijo) && (EndsWith(nombre, ".xlsx") || EndsWith(nombre, ".xls"))
  }

  // ---------------------------------------------------------------------
  // Store and lookups
  // ---------------------------------------------------------------------

  /**
   * The store after `cargar_archivo_glosa(ruta)` when pandas reads `leido`:
   * an unsupported extension or a failed read leaves it as it was, else the
   * table is stored under the file's series, replacing any earlier one.
   */
  function TrasCargar(glosas: Glosas, ruta: string, leido: Option<seq<GlosaRow>>): Glosas
  {
    if ExtensionSoportada(Extension(ruta)) && leido.Some? then glosas[SerieDeArchivo(ruta) := leido.value]
    else glosas
  }

  /** The store after loading, in order, every admitted entry of `nombres` from `dir`. */
  function CargarTodas(glosas: Glosas, dir: string, nombres: seq<string>,
                       leer: string -> Option<seq<GlosaRow>>): Glosas
    decreases |nombres|
  {
    if nombres == [] then glosas
    else
      var previo := CargarTodas(glosas, dir, nombres[..|nombres| - 1], leer);
      var nombre := nombres[|nombres| - 1];
      if EsArchivoGlosa(nombre) then TrasCargar(previo, PathJoin(dir, nombre), leer(PathJoin(dir, nombre)))
      else previo
  }

  /** `obtener_glosa_por_serie`: the table under the upper-cased series. */
  function GlosaPorSerie(glosas: Glosas, serie: string): (r: Option<seq<GlosaRow>>)
    ensures r.Some? <==> Upper(serie) in glosas
    ensures r.Some? ==> r.value == glosas[Upper(serie)]
  {
    if Upper(serie) in glosas then Some(glosas[Upper(serie)]) else None
  }

  /** The index of the first row whose code is `codigo`. */
  function PrimeraFila(filas: seq<GlosaRow>, codigo: string): (r: Option<nat>)
    ensures r.Some? ==> r.value < |filas| && filas[r.value].codigoPrestacion == codigo
    ensures r.Some? ==> forall j :: 0 <= j < r.value ==> filas[j].codigoPrestacion != codigo
    ensures r.None? <==> forall j :: 0 <= j < |filas| ==> filas[j].codigoPrestacion != codigo
    decreases |filas|
  {
    if filas == [] then None
    else if filas[0].codigoPrestacion == codigo then Some(0)
    else match PrimeraFila(filas[1..], codigo)
      case None => None
      case Some(i) => Some(i + 1)
  }

  /**
   * `obtener_info_prestacion`: the first row of the series' table whose code
   * equals `str(codigo)`; `None` without a table or without a match.
   */
  function InfoPrestacion(glosas: Glosas, serie: string, codigo: Value): (r: Option<GlosaRow>)
    ensures r.Some? ==> Upper(serie) in glosas && r.value in glosas[Upper(serie)]
    ensures r.Some? ==> r.value.codigoPrestacion == Render(codigo)
    ensures r.None? <==>
      (Upper(serie) !in glosas
       || forall j :: 0 <= j < |glosas[Upper(serie)]| ==>
            glosas[Upper(serie)][j].codigoPrestacion != Render(codigo))
  {
    match GlosaPorSerie(glosas, serie)
    case None => None
    case Some(filas) =>
      match PrimeraFila(filas, Render(codigo))
      case None => None
      case Some(i) => Some(filas[i])
  }

  // ---------------------------------------------------------------------
  // Properties
  // ---------------------------------------------------------------------

  /** The row returned is the first one carrying the code: rows after it never shadow it. */
  lemma InfoPrestacionFirst(glosas: Glosas, serie: string, codigo: Value, i: nat)
    requires Upper(serie) in glosas
    requires i < |glosas[Upper(serie)]|
    requires glosas[Upper(serie)][i].codigoPrestacion == Render(codigo)
    requires forall j :: 0 <= j < i ==> glosas[Upper(serie)][j].codigoPrestacion != Render(codigo)
    ensures InfoPrestacion(glosas, serie, codigo) == Some(glosas[Upper(serie)][i])
  {
    var filas := glosas[Upper(serie)];
    var p := PrimeraFila(filas, Render(codigo));
    assert p.Some?;
    assert p.value == i;
  }

  /** Series lookup ignores the case of its argument. */
  lemma GlosaPorSerieIgnoresCase(glosas: Glosas, serie: string)
    ensures GlosaPorSerie(glosas, serie) == GlosaPorSerie(glosas, Upper(serie))
    ensures GlosaPorSerie(glosas, Lower(serie)) == GlosaPorSerie(glosas, serie)
  {
    UpperIdempotent(serie);
    assert Upper(Lower(serie)) == Upper(serie);
  }

  /** Removing the prefix from letters followed by an extension removes it from the extension only. */
  lemma {:induction false} QuitarPrefijoLetras(s: string, t: string)
    requires forall k :: 0 <= k < |s| ==> IsLetterChar(s[k])
    requires t == [] || t[0] == '.'
    ensures QuitarPrefijo(s + t) == s + QuitarPrefijo(t)
    decreases |s|
  {
    if |s + t| < |Prefijo| {
      QuitarPrefijoCorto(s, t);
    } else if s != [] {
      QuitarPrefijoLetras(s[1..], t);
      SinPrefijoAlInicio(s, t);
      QuitarPrefijoLetrasPaso(s, t);
    } else {
      assert s + t == t;
    }
  }

  /** The inductive step of `QuitarPrefijoLetras`: a first character that does not start the prefix is kept. */
  lemma QuitarPrefijoLetrasPaso(s: string, t: string)
    requires s != [] && |s + t| >= |Prefijo|
    requires (s + t)[..|Prefijo|] != Prefijo
    requires QuitarPrefijo(s[1..] + t) == s[1..] + QuitarPrefijo(t)
    ensures QuitarPrefijo(s + t) == s + QuitarPrefijo(t)
  {
    var st := s + t;
    assert st[1..] == s[1..] + t;
    assert st[0] == s[0];
    calc {
      QuitarPrefijo(st);
    == { PrimeroSeQueda(st, s[1..] + QuitarPrefijo(t)); }
      [s[0]] + (s[1..] + QuitarPrefijo(t));
    == { CabezaYCola(s, QuitarPrefijo(t)); }
      s + QuitarPrefijo(t);
    }
  }

  /** Text shorter than the prefix is left as it is. */
  lemma QuitarPrefijoCorto(s: string, t: string)
    requires |s + t| < |Prefijo|
    ensures QuitarPrefijo(s + t) == s + QuitarPrefijo(t)
  {
    assert QuitarPrefijo(t) == t;
  }

  /** A first character that does not start the prefix is kept in front of the rest. */
  lemma PrimeroSeQueda(st: string, resto: string)
    requires |st| >= |Prefijo| && st[..|Prefijo|] != Prefijo
    requires QuitarPrefijo(st[1..]) == resto
    ensures QuitarPrefijo(st) == [st[0]] + resto
  {
  }

  lemma CabezaYCola(s: string, x: string)
    requires s != []
    ensures [s[0]] + (s[1..] + x) == s + x
  {
    assert [s[0]] + s[1..] == s;
  }

  /** Letters followed by a dotted tail cannot start with the prefix: its '_' never lines up. */
  lemma SinPrefijoAlInicio(s: string, t: string)
    requires forall k :: 0 <= k < |s| ==> IsLetterChar(s[k])
    requires t == [] || t[0] == '.'
    requires s != [] && |s + t| >= |Prefijo|
    ensures (s + t)[..|Prefijo|] != Prefijo
  {
    var st := s + t;
    if |s| > 5 {
      assert st[5] == s[5];
    } else {
      assert st[|s|] == '.';
      assert Prefijo[|s|] != '.';
    }
  }

  /** A text that starts with '.' keeps that dot when the prefix is removed. */
  lemma QuitarPrefijoPunto(t: string)
    requires t == [] || t[0] == '.'
    ensures QuitarPrefijo(t) == [] || QuitarPrefijo(t)[0] == '.'
  {
    if |t| >= |Prefijo| {
      assert t[..|Prefijo|][0] == '.';
    }
  }

  /** Cutting at the first '.' of letters followed by a dotted tail leaves the letters. */
  lemma {:induction false} AntesDelPuntoLetras(s: string, t: string)
    requires forall k :: 0 <= k < |s| ==> IsLetterChar(s[k])
    requires t == [] || t[0] == '.'
    ensures AntesDelPunto(s + t) == s
  {
    if s != [] {
      assert (s + t)[1..] == s[1..] + t;
      AntesDelPuntoLetras(s[1..], t);
    } else {
      assert s + t == t;
    }
  }

  /** The shape of `GLOSA_S<serie><ext>` as a directory entry. */
  lemma NombreGlosa(serie: string, ext: string)
    requires forall k :: 0 <= k < |serie| ==> IsLetterChar(serie[k])
    requires forall k :: 0 <= k < |ext| ==> ext[k] != '/'
    ensures var nombre := Prefijo + serie + ext;
      && (forall k :: 0 <= k < |nombre| ==> nombre[k] != '/')
      && nombre[0] == 'G' && |ext| < |nombre| && EndsWith(nombre, ext)
  {
    var nombre := Prefijo + serie + ext;
    forall k | 0 <= k < |nombre|
      ensures nombre[k] != '/'
    {
      if k < |Prefijo| {
        assert nombre[k] == Prefijo[k];
      } else if k < |Prefijo| + |serie| {
        assert nombre[k] == serie[k - |Prefijo|];
      } else {
        assert nombre[k] == ext[k - |Prefijo| - |serie|];
      }
    }
    assert nombre[|nombre| - |ext|..] == ext;
  }

  /**
   * A table loaded from `<dir>/GLOSA_S<serie>.<ext>` is keyed by the series
   * upper-cased: the prefix, the directory and the extension are dropped.
   */
  lemma SerieDeGlosa(dir: string, serie: string, ext: string)
    requires forall k :: 0 <= k < |serie| ==> IsLetterChar(serie[k])
    requires |ext| > 0 && ext[0] == '.'
    requires forall k :: 0 <= k < |ext| ==> ext[k] != '/'
    ensures SerieDeArchivo(PathJoin(dir, Prefijo + serie + ext)) == Upper(serie)
  {
    var nombre := Prefijo + serie + ext;
    NombreGlosa(serie, ext);
    BaseNameOfJoin(dir, nombre);
    assert nombre[..|Prefijo|] == Prefijo;
    assert nombre[|Prefijo|..] == serie + ext;
    assert QuitarPrefijo(nombre) == QuitarPrefijo(serie + ext);
    QuitarPrefijoLetras(serie, ext);
    QuitarPrefijoPunto(ext);
    AntesDelPuntoLetras(serie, QuitarPrefijo(ext));
  }

  /** The series key of an example glosa file. */
  lemma SerieDeGlosaExample()
    ensures SerieDeArchivo("glosa/GLOSA_SA.xlsx") == "A"
  {
    PartesGlosaEjemplo();
    SerieDeGlosa("glosa", "A", ".xlsx");
  }

  lemma PartesGlosaEjemplo()
    ensures IsLetterChar('A') && Upper("A") == "A"
    ensures forall k :: 0 <= k < |".xlsx"| ==> ".xlsx"[k] != '/'
    ensures PathJoin("glosa", Prefijo + "A" + ".xlsx") == "glosa/GLOSA_SA.xlsx"
  {
  }

  /** The series key of a glosa file is upper-cased. */
  lemma SerieDeGlosaMixedCase()
    ensures SerieDeArchivo("glosa/GLOSA_Sbm.xls") == "BM"
  {
    PartesGlosaMixtas();
    SerieDeGlosa("glosa", "bm", ".xls");
  }

  lemma PartesGlosaMixtas()
    ensures IsLetterChar('b') && IsLetterChar('m') && Upper("bm") == "BM"
    ensures forall k :: 0 <= k < |".xls"| ==> ".xls"[k] != '/'
    ensures PathJoin("glosa", Prefijo + "bm" + ".xls") == "glosa/GLOSA_Sbm.xls"
  {
  }

  /** The extension of a name ending in `suf`, a dot and letters, after a non-dot first character. */
  lemma ExtensionOf(dir: string, nombre: string, suf: string)
    requires forall k :: 0 <= k < |nombre| ==> nombre[k] != '/'
    requires |suf| > 0 && suf[0] == '.' && forall k :: 1 <= k < |suf| ==> suf[k] != '.'
    requires |suf| < |nombre| && nombre[0] != '.' && EndsWith(nombre, suf)
    ensures Extension(PathJoin(dir, nombre)) == Lower(suf)
  {
    BaseNameOfJoin(dir, nombre);
    var d := |nombre| - |suf|;
    assert nombre[d..] == suf;
    assert nombre[d] == '.';
    var u := UltimoPunto(nombre);
    assert u.Some?;
    assert forall k :: d < k < |nombre| ==> nombre[k] == suf[k - d];
    assert u.value == d;
    assert !SoloPuntos(nombre[..d]) by {
      assert nombre[..d][0] == nombre[0];
    }
  }

  /** Every entry the bulk loader admits has an extension the single loader reads. */
  lemma AdmittedIsSupported(dir: string, nombre: string)
    requires forall k :: 0 <= k < |nombre| ==> nombre[k] != '/'
    requires EsArchivoGlosa(nombre)
    ensures ExtensionSoportada(Extension(PathJoin(dir, nombre)))
  {
    assert nombre[..|Prefijo|] == Prefijo;
    assert nombre[0] == 'G';
    var suf := if EndsWith(nombre, ".xlsx") then ".xlsx" else ".xls";
    assert Lower(suf) == suf && ExtensionSoportada(suf);
    assert nombre[|nombre| - |suf|..][0] == '.';
    ExtensionOf(dir, nombre, suf);
  }

  /** The name filter is case-sensitive and leaves out `.xlsm`, which the single loader would read. */
  lemma FilterExamples()
    ensures EsArchivoGlosa("GLOSA_SA.xlsx") && EsArchivoGlosa("GLOSA_SBM.xls")
    ensures !EsArchivoGlosa("glosa_sA.xlsx") && !EsArchivoGlosa("GLOSA_SA.XLSX")
    ensures !EsArchivoGlosa("GLOSA_SA.xlsm")
  {
    assert "GLOSA_SA.xlsx"[..7] == Prefijo && "GLOSA_SA.xlsx"[8..] == ".xlsx";
    assert "GLOSA_SBM.xls"[..7] == Prefijo && "GLOSA_SBM.xls"[9..] == ".xls";
    assert "glosa_sA.xlsx"[..7][0] == 'g';
    assert "GLOSA_SA.XLSX"[8..][1] == 'X';
    assert "GLOSA_SA.XLSX"[9..][0] == 'X';
    assert "GLOSA_SA.xlsm"[8..][4] == 'm';
    assert "GLOSA_SA.xlsm"[9..][3] == 'm';
  }

  /** A read that fails, or a file of another type, registers nothing. */
  lemma FailedLoadKeepsStore(glosas: Glosas, ruta: string, leido: Option<seq<GlosaRow>>)
    requires leido.None? || !ExtensionSoportada(Extension(ruta))
    ensures TrasCargar(glosas, ruta, leido) == glosas
  {
  }

  /** Loading a series again replaces its table; the other keys keep theirs. */
  lemma ReloadReplaces(glosas: Glosas, r1: string, t1: seq<GlosaRow>, r2: string, t2: seq<GlosaRow>)
    requires ExtensionSoportada(Extension(r1)) && ExtensionSoportada(Extension(r2))
    requires SerieDeArchivo(r1) == SerieDeArchivo(r2)
    ensures var g := TrasCargar(TrasCargar(glosas, r1, Some(t1)), r2, Some(t2));
      && g[SerieDeArchivo(r1)] == t2
      && g.Keys == glosas.Keys + {SerieDeArchivo(r1)}
      && forall k :: k in glosas && k != SerieDeArchivo(r1) ==> g[k] == glosas[k]
  {
  }

  /** The three extensions the single loader reads, and their shape. */
  lemma ExtensionLeida(ext: string)
    requires ext == ".xlsx" || ext == ".xls" || ext == ".xlsm"
    ensures Lower(ext) == ext && ExtensionSoportada(ext)
    ensures |ext| > 0 && ext[0] == '.' && forall k :: 1 <= k < |ext| ==> ext[k] != '.' && ext[k] != '/'
  {
  }

  /** After a successful load, the table is found under the series in any case. */
  lemma LoadThenLookup(glosas: Glosas, dir: string, serie: string, ext: string, t: seq<GlosaRow>)
    requires forall k :: 0 <= k < |serie| ==> IsLetterChar(serie[k])
    requires ext == ".xlsx" || ext == ".xls" || ext == ".xlsm"
    ensures GlosaPorSerie(TrasCargar(glosas, PathJoin(dir, Prefijo + serie + ext), Some(t)), serie) == Some(t)
    ensures GlosaPorSerie(TrasCargar(glosas, PathJoin(dir, Prefijo + serie + ext), Some(t)), Lower(serie)) == Some(t)
  {
    var nombre := Prefijo + serie + ext;
    ExtensionLeida(ext);
    SerieDeGlosa(dir, serie, ext);
    NombreGlosa(serie, ext);
    ExtensionOf(dir, nombre, ext);
    var g := TrasCargar(glosas, PathJoin(dir, nombre), Some(t));
    assert g == glosas[Upper(serie) := t];
    GlosaPorSerieIgnoresCase(g, serie);
  }

  /** In a bulk load from `dir`, entry `nombre` stores a table under key `k`. */
  predicate Registra(dir: string, nombre: string, leer: string -> Option<seq<GlosaRow>>, k: string) {
    var ruta := PathJoin(dir, nombre);
    EsArchivoGlosa(nombre) && ExtensionSoportada(Extension(ruta)) && leer(ruta).Some? && SerieDeArchivo(ruta) == k
  }

  /**
   * After a bulk load, a key that some entry stores is present and holds the
   * table of the last entry that stores it: later files of the same series win.
   */
  lemma {:induction false} CargarTodasUltima(glosas: Glosas, dir: string, nombres: seq<string>,
                                            leer: string -> Option<seq<GlosaRow>>, k: string, j: int)
    requires 0 <= j < |nombres| && Registra(dir, nombres[j], leer, k)
    requires forall l :: j < l < |nombres| ==> !Registra(dir, nombres[l], leer, k)
    ensures k in CargarTodas(glosas, dir, nombres, leer)
    ensures CargarTodas(glosas, dir, nombres, leer)[k] == leer(PathJoin(dir, nombres[j])).value
    decreases |nombres|
  {
    var n := |nombres| - 1;
    if j < n {
      UltimaAntes(dir, nombres, leer, k, j);
      CargarTodasUltima(glosas, dir, nombres[..n], leer, k, j);
      FinalNoRegistra(glosas, dir, nombres, leer, k);
    } else {
      FinalRegistra(glosas, dir, nombres, leer, k);
    }
  }

  /** A final entry that stores `k` leaves its own table under `k`. */
  lemma FinalRegistra(glosas: Glosas, dir: string, nombres: seq<string>, leer: string -> Option<seq<GlosaRow>>, k: string)
    requires nombres != [] && Registra(dir, nombres[|nombres| - 1], leer, k)
    ensures k in CargarTodas(glosas, dir, nombres, leer)
    ensures CargarTodas(glosas, dir, nombres, leer)[k] == leer(PathJoin(dir, nombres[|nombres| - 1])).value
  {
    var n := |nombres| - 1;
    PasoRegistra(CargarTodas(glosas, dir, nombres[..n], leer), dir, nombres[n], leer, k);
  }

  /** A final entry that does not store `k` leaves key `k` as the earlier entries left it. */
  lemma FinalNoRegistra(glosas: Glosas, dir: string, nombres: seq<string>, leer: string -> Option<seq<GlosaRow>>, k: string)
    requires nombres != [] && !Registra(dir, nombres[|nombres| - 1], leer, k)
    ensures var previo := CargarTodas(glosas, dir, nombres[..|nombres| - 1], leer);
      var r := CargarTodas(glosas, dir, nombres, leer);
      (k in r <==> k in previo) && (k in previo ==> r[k] == previo[k])
  {
    var n := |nombres| - 1;
    PasoNoRegistra(CargarTodas(glosas, dir, nombres[..n], leer), dir, nombres[n], leer, k);
  }

  /** When the last entry to store `k` is not the final one, it is also the last one among the earlier entries. */
  lemma UltimaAntes(dir: string, nombres: seq<string>, leer: string -> Option<seq<GlosaRow>>, k: string, j: int)
    requires 0 <= j < |nombres| - 1 && Registra(dir, nombres[j], leer, k)
    requires forall l :: j < l < |nombres| ==> !Registra(dir, nombres[l], leer, k)
    ensures var init := nombres[..|nombres| - 1];
      && Registra(dir, init[j], leer, k)
      && (forall l :: j < l < |init| ==> !Registra(dir, init[l], leer, k))
      && !Registra(dir, nombres[|nombres| - 1], leer, k)
  {
    var init := nombres[..|nombres| - 1];
    assert forall l :: j <= l < |init| ==> init[l] == nombres[l];
  }

  /** One entry of the bulk load that stores key `k` leaves its table there. */
  lemma PasoRegistra(previo: Glosas, dir: string, nombre: string, leer: string -> Option<seq<GlosaRow>>, k: string)
    requires Registra(dir, nombre, leer, k)
    ensures var r := if EsArchivoGlosa(nombre) then TrasCargar(previo, PathJoin(dir, nombre), leer(PathJoin(dir, nombre))) else previo;
      k in r && r[k] == leer(PathJoin(dir, nombre)).value
  {
  }

  /** One entry of the bulk load that does not store key `k` leaves key `k` as it was. */
  lemma PasoNoRegistra(previo: Glosas, dir: string, nombre: string, leer: string -> Option<seq<GlosaRow>>, k: string)
    requires !Registra(dir, nombre, leer, k)
    ensures var r := if EsArchivoGlosa(nombre) then TrasCargar(previo, PathJoin(dir, nombre), leer(PathJoin(dir, nombre))) else previo;
      (k in r <==> k in previo) && (k in previo ==> r[k] == previo[k])
  {
  }

  /** Some entry at or after `i` is the last one to store key `k`. */
  lemma ExisteUltimo(dir: string, nombres: seq<string>, leer: string -> Option<seq<GlosaRow>>, k: string, i: int)
    requires 0 <= i < |nombres| && Registra(dir, nombres[i], leer, k)
    ensures exists j :: (i <= j < |nombres| && Registra(dir, nombres[j], leer, k)
                         && forall l :: j < l < |nombres| ==> !Registra(dir, nombres[l], leer, k))
    decreases |nombres| - i
  {
    if exists l :: i < l < |nombres| && Registra(dir, nombres[l], leer, k) {
      var l :| i < l < |nombres| && Registra(dir, nombres[l], leer, k);
      ExisteUltimo(dir, nombres, leer, k, l);
    }
  }

  /**
   * Every admitted entry whose read succeeds ends up in the store: its series
   * is a key, and it holds the table of that entry or of a later one of the
   * same series.
   */
  lemma CargarTodasIncluye(glosas: Glosas, dir: string, nombres: seq<string>,
                           leer: string -> Option<seq<GlosaRow>>, i: int)
    requires 0 <= i < |nombres| && forall c :: 0 <= c < |nombres[i]| ==> nombres[i][c] != '/'
    requires EsArchivoGlosa(nombres[i]) && leer(PathJoin(dir, nombres[i])).Some?
    ensures var k := SerieDeArchivo(PathJoin(dir, nombres[i]));
      && k in CargarTodas(glosas, dir, nombres, leer)
      && exists j :: i <= j < |nombres| && EsArchivoGlosa(nombres[j]) && leer(PathJoin(dir, nombres[j])).Some?
           && SerieDeArchivo(PathJoin(dir, nombres[j])) == k
           && CargarTodas(glosas, dir, nombres, leer)[k] == leer(PathJoin(dir, nombres[j])).value
  {
    var k := SerieDeArchivo(PathJoin(dir, nombres[i]));
    AdmittedIsSupported(dir, nombres[i]);
    ExisteUltimo(dir, nombres, leer, k, i);
    var j :| i <= j < |nombres| && Registra(dir, nombres[j], leer, k)
      && (forall l :: j < l < |nombres| ==> !Registra(dir, nombres[l], leer, k));
    CargarTodasUltima(glosas, dir, nombres, leer, k, j);
  }

  /**
   * Every key of the store after a bulk load was there before, or is the
   * series of an admitted entry whose read succeeded.
   */
  lemma {:induction false} CargarTodasKeys(glosas: Glosas, dir: string, nombres: seq<string>,
                                           leer: string -> Option<seq<GlosaRow>>, k: string)
    requires k in CargarTodas(glosas, dir, nombres, leer)
    ensures k in glosas ||
      exists i :: (0 <= i < |nombres| && EsArchivoGlosa(nombres[i])
                   && leer(PathJoin(dir, nombres[i])).Some? && k == SerieDeArchivo(PathJoin(dir, nombres[i])))
    decreases |nombres|
  {
    if nombres != [] {
      var init := nombres[..|nombres| - 1];
      var previo := CargarTodas(glosas, dir, init, leer);
      var n := |nombres| - 1;
      if k in previo {
        CargarTodasKeys(glosas, dir, init, leer, k);
        if !(k in glosas) {
          var i :| 0 <= i < |init| && EsArchivoGlosa(init[i])
            && leer(PathJoin(dir, init[i])).Some? && k == SerieDeArchivo(PathJoin(dir, init[i]));
          assert nombres[i] == init[i];
        }
      } else {
        assert EsArchivoGlosa(nombres[n]) && leer(PathJoin(dir, nombres[n])).Some?;
      }
    }
  }

  /** A bulk load into an upper-case store leaves every key upper-case. */
  lemma {:induction false} CargarTodasUpperKeys(glosas: Glosas, dir: string, nombres: seq<string>,
                                                leer: string -> Option<seq<GlosaRow>>)
    requires forall k :: k in glosas ==> NoLower(k)
    ensures forall k :: k in CargarTodas(glosas, dir, nombres, leer) ==> NoLower(k)
    decreases |nombres|
  {
    if nombres != [] {
      CargarTodasUpperKeys(glosas, dir, nombres[..|nombres| - 1], leer);
    }
  }

  // ---------------------------------------------------------------------
  // The reader object
  // ---------------------------------------------------------------------

  /** `LectorGlosa`: the glosa directory and the tables loaded so far. */
  class LectorGlosa {
    const directorioGlosa: string
    var glosas: Glosas

    constructor (directorio: string)
      ensures directorioGlosa == directorio && glosas == map[]
    {
      directorioGlosa := directorio;
      glosas := map[];
    }

    /** `cargar_archivo_glosa`: returns the table it stored, `None` when it stored nothing. */
    method CargarArchivoGlosa(ruta: string, leido: Option<seq<GlosaRow>>) returns (r: Option<seq<GlosaRow>>)
      modifies this`glosas
      ensures glosas == TrasCargar(old(glosas), ruta, leido)
      ensures r == if ExtensionSoportada(Extension(ruta)) then leido else None
    {
      var extension := Extension(ruta);
      if !ExtensionSoportada(extension) {
        return None;
      }
      if leido.None? {
        return None;
      }
      var serie := SerieDeArchivo(ruta);
      glosas := glosas[serie := leido.value];
      return leido;
    }

    /** `cargar_todas_glosas` over the directory listing `nombres`, reading each through `leer`. */
    method CargarTodasGlosas(nombres: seq<string>, leer: string -> Option<seq<GlosaRow>>)
      modifies this`glosas
      ensures glosas == CargarTodas(old(glosas), directorioGlosa, nombres, leer)
    {
      for i := 0 to |nombres|
        invariant glosas == CargarTodas(old(glosas), directorioGlosa, nombres[..i], leer)
      {
        assert nombres[..i + 1][..i] == nombres[..i];
        var nombreArchivo := nombres[i];
        if EsArchivoGlosa(nombreArchivo) {
          var rutaArchivo := PathJoin(directorioGlosa, nombreArchivo);
          var _ := CargarArchivoGlosa(rutaArchivo, leer(rutaArchivo));
        }
      }
      assert nombres[..|nombres|] == nombres;
    }
  }
}
