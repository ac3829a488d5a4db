/**
 * `escanear_archivos_xlsm` of `main.py`: which series files are present for
 * each establishment and month. The directory listing is given as the
 * sequence `nombres`, in the order `os.listdir` returns it.
 */
module ScanFiles {
  import opened Wrappers
  import opened Values
  import opened XlsmParser

  /** `(codigo_establecimiento, mes)`. */
  type Clave = (string, string)

  /** The series seen under each key, in listing order, duplicates kept. */
  type Disponibles = map<Clave, seq<string>>

  /**
   * What one directory entry adds: its key and series when the name ends
   * in ".xlsm" (case matters) and the reader accepts it; nothing otherwise.
   */
  function Aporte(dir: string, nombre: string): (r: Option<(Clave, string)>)
    ensures r.Some? ==> EndsWith(nombre, ".xlsm") && ParseFileName(PathJoin(dir, nombre)).Some?
  {
    if !EndsWith(nombre, ".xlsm") then None
    else match ParseFileName(PathJoin(dir, nombre))
      case None => None
      case Some(d) => Some(((d.codigo, d.mes), d.serie))
  }

  /** `serie` appended to the list under `clave`, the list created on first use. */
  function Agregar(m: Disponibles, clave: Clave, serie: string): Disponibles
  {
    m[clave := (if clave in m then m[clave] else []) + [serie]]
  }

  /** The map after scanning `nombres` in order. */
  function Escaneo(dir: string, nombres: seq<string>): Disponibles
    decreases |nombres|
  {
    if nombres == [] then map[]
    else
      var previo := Escaneo(dir, nombres[..|nombres| - 1]);
      match Aporte(dir, nombres[|nombres| - 1])
      case None => previo
      case Some(a) => Agregar(previo, a.0, a.1)
  }

  /** Reference: the series of the entries contributing under `clave`, in listing order. */
  function SeriesBajo(dir: string, nombres: seq<string>, clave: Clave): seq<string>
    decreases |nombres|
  {
    if nombres == [] then []
    else
      SeriesBajo(dir, nombres[..|nombres| - 1], clave)
      + match Aporte(dir, nombres[|nombres| - 1])
        case Some(a) => if a.0 == clave then [a.1] else []
        case None => []
  }

  /** `escanear_archivos_xlsm`: entries the reader rejects are skipped. */
  method EscanearArchivosXLSM(directorio: string, nombres: seq<string>) returns (r: Disponibles)
    ensures r == Escaneo(directorio, nombres)
  {
    var archivos: Disponibles := map[];
    for i := 0 to |nombres|
      invariant archivos == Escaneo(directorio, nombres[..i])
    {
      EscaneoPaso(directorio, nombres, i);
      archivos := AgregarArchivo(directorio, nombres[i], archivos);
    }
    assert nombres[..|nombres|] == nombres;
    return archivos;
  }

  /** The loop body of `escanear_archivos_xlsm` for one entry. */
  method AgregarArchivo(directorio: string, nombreArchivo: string, archivos: Disponibles) returns (r: Disponibles)
    ensures r == match Aporte(directorio, nombreArchivo)
      case None => archivos
      case Some(a) => Agregar(archivos, a.0, a.1)
  {
    r := archivos;
    if !EndsWith(nombreArchivo, ".xlsm") {
      return;
    }
    var lector := NuevoLector(PathJoin(directorio, nombreArchivo), None);
    if lector.Err? {
      return;
    }
    var clave, serie := (lector.value.codigoEstablecimiento, lector.value.mes), lector.value.serie;
    assert Aporte(directorio, nombreArchivo) == Some((clave, serie));
    if clave !in r {
      r := r[clave := []];
    }
    r := r[clave := r[clave] + [serie]];
    assert r == Agregar(archivos, clave, serie);
  }

  /** Scanning one more entry adds its contribution, if any. */
  lemma EscaneoPaso(dir: string, nombres: seq<string>, i: nat)
    requires i < |nombres|
    ensures Escaneo(dir, nombres[..i + 1]) ==
      match Aporte(dir, nombres[i])
      case None => Escaneo(dir, nombres[..i])
      case Some(a) => Agregar(Escaneo(dir, nombres[..i]), a.0, a.1)
  {
    assert nombres[..i + 1][..i] == nombres[..i];
  }

  /**
   * The map groups the accepted entries by key: a key is present exactly
   * when some entry contributes to it, and its list is those entries'
   * series in listing order.
   */
  lemma {:induction false} EscaneoAgrupa(dir: string, nombres: seq<string>, clave: Clave)
    ensures clave in Escaneo(dir, nombres) <==> SeriesBajo(dir, nombres, clave) != []
    ensures clave in Escaneo(dir, nombres) ==> Escaneo(dir, nombres)[clave] == SeriesBajo(dir, nombres, clave)
    decreases |nombres|
  {
    if nombres != [] {
      EscaneoAgrupa(dir, nombres[..|nombres| - 1], clave);
    }
  }

  /** No key maps to an empty list. */
  lemma EscaneoNoVacio(dir: string, nombres: seq<string>, clave: Clave)
    requires clave in Escaneo(dir, nombres)
    ensures |Escaneo(dir, nombres)[clave]| > 0
  {
    EscaneoAgrupa(dir, nombres, clave);
  }

  /** Every key is a digit code and a two-digit month; every series is upper-case letters. */
  lemma {:induction false} EscaneoForma(dir: string, nombres: seq<string>)
    ensures forall clave :: clave in Escaneo(dir, nombres) ==>
      && |clave.0| > 0 && AllDigits(clave.0) && |clave.1| == 2 && AllDigits(clave.1)
      && forall j :: 0 <= j < |Escaneo(dir, nombres)[clave]| ==>
           IsAlpha(Escaneo(dir, nombres)[clave][j]) && NoLower(Escaneo(dir, nombres)[clave][j])
    decreases |nombres|
  {
    if nombres != [] {
      EscaneoForma(dir, nombres[..|nombres| - 1]);
      var a := Aporte(dir, nombres[|nombres| - 1]);
      if a.Some? {
        ParseSound(BaseName(PathJoin(dir, nombres[|nombres| - 1])));
      }
    }
  }

  /** What an entry contributes depends on its own name only, not on the directory. */
  lemma AporteDe(dir: string, nombre: string)
    requires forall k :: 0 <= k < |nombre| ==> nombre[k] != '/'
    ensures Aporte(dir, nombre) ==
      if !EndsWith(nombre, ".xlsm") || ParseBaseName(nombre).None? then None
      else Some(((ParseBaseName(nombre).value.codigo, ParseBaseName(nombre).value.mes), ParseBaseName(nombre).value.serie))
  {
    BaseNameOfJoin(dir, nombre);
  }

  /** A well-formed name contributes its establishment, month and series. */
  lemma AporteExample()
    ensures Aporte("original", "116322A05.xlsm") == Some((("116322", "05"), "A"))
  {
    var n := "116322A05.xlsm";
    assert forall k :: 0 <= k < |n| ==> n[k] != '/';
    assert n[|n| - 5..] == ".xlsm";
    assert EndsWith(n, ".xlsm");
    ParseExample();
    AporteDe("original", n);
  }

  /** The suffix test is case-sensitive: ".XLSM" is not scanned. */
  lemma AporteUpperSuffix()
    ensures Aporte("original", "116322A05.XLSM").None?
  {
    assert "116322A05.XLSM"[9..][1] == 'X';
  }

  /** A name the reader rejects (a one-digit month) contributes nothing. */
  lemma AporteRejected()
    ensures Aporte("original", "116322A5.xlsm").None?
  {
    var n := "116322A5.xlsm";
    assert forall k :: 0 <= k < |n| ==> n[k] != '/';
    ParseRejectsShortMonth();
    AporteDe("original", n);
  }
}
