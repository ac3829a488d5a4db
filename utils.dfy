/**
 * The column codec and the month-name table of `src/utils.py`.
 *
 * Columns are numbered in bijective base 26 (1 is "A", 26 is "Z", 27 is
 * "AA"): there is no digit for zero. `Letters` and `ColumnValue` are the
 * two directions as functions; the methods are the source's loops, proved
 * against them.
 */
module Utils {
  import opened Wrappers
  import opened Values

  const Alphabet: string := "ABCDEFGHIJKLMNOPQRSTUVWXYZ"

  /** The letters of column `i`, most significant first; "" for 0. */
  function Letters(i: nat): string
  {
    if i == 0 then "" else Letters((i - 1) / 26) + [Alphabet[(i - 1) % 26]]
  }

  /** `ord(c) - ord('A') + 1`: the digit a letter contributes once upper-cased. */
  function LetterDigit(c: char): int
  {
    c as int - 'A' as int + 1
  }

  /** The value the source's accumulation loop computes over `s`. */
  function ColumnValue(s: string): int
  {
    if s == [] then 0 else ColumnValue(s[..|s| - 1]) * 26 + LetterDigit(s[|s| - 1])
  }

  /** Upper-case ASCII letters only. */
  predicate AllUpperLetters(s: string) {
    forall k :: 0 <= k < |s| ==> IsUpperChar(s[k])
  }

  const InvalidIndexError: Error :=
    ValueError("El índice de la columna debe ser un entero positivo (base 1).")
  const LetterError: Error :=
    ValueError("La letra de la columna debe ser un string con solo caracteres alfabéticos.")

  /** `columna_a_letra_excel`: repeated `divmod(i - 1, 26)`, prepending a letter each time. */
  method ColumnaALetraExcel(indiceCol: int) returns (r: Result<string, Error>)
    ensures indiceCol < 1 ==> r == Err(InvalidIndexError)
    ensures indiceCol >= 1 ==> r == Ok(Letters(indiceCol))
  {
    if indiceCol < 1 {
      return Err(InvalidIndexError);
    }
    var i: nat := indiceCol;
    var resultado := "";
    while i > 0
      invariant Letters(i) + resultado == Letters(indiceCol)
      decreases i
    {
      var remanente := (i - 1) % 26;
      resultado := [Alphabet[remanente]] + resultado;
      i := (i - 1) / 26;
    }
    assert i == 0 && Letters(0) == "";
    assert Letters(i) + resultado == resultado;
    return Ok(resultado);
  }

  /** `letra_excel_a_columna`: rejects what `isalpha` rejects, then accumulates over `upper()`. */
  method LetraExcelAColumna(letraCol: string) returns (r: Result<int, Error>)
    ensures !IsAlpha(letraCol) ==> r == Err(LetterError)
    ensures IsAlpha(letraCol) ==> r == Ok(ColumnValue(Upper(letraCol)))
  {
    if |letraCol| == 0 {
      return Err(LetterError);
    }
    var k := 0;
    while k < |letraCol|
      invariant 0 <= k <= |letraCol|
      invariant forall j :: 0 <= j < k ==> IsLetterChar(letraCol[j])
    {
      if !IsLetterChar(letraCol[k]) {
        return Err(LetterError);
      }
      k := k + 1;
    }
    var upper := Upper(letraCol);
    var resultado := 0;
    for n := 0 to |upper|
      invariant resultado == ColumnValue(upper[..n])
    {
      assert upper[..n + 1][..n] == upper[..n];
      resultado := resultado * 26 + LetterDigit(upper[n]);
    }
    assert upper[..|upper|] == upper;
    return Ok(resultado);
  }

  /** The letters of any column are a non-empty word over 'A'..'Z'. */
  lemma {:induction false} LettersShape(i: nat)
    ensures i >= 1 <==> |Letters(i)| > 0
    ensures AllUpperLetters(Letters(i))
  {
    if i > 0 {
      LettersShape((i - 1) / 26);
    }
  }

  /** Reading back the letters of column `i` gives `i`. */
  lemma {:induction false} ColumnValueOfLetters(i: nat)
    ensures ColumnValue(Letters(i)) == i
  {
    if i > 0 {
      var q, rem := (i - 1) / 26, (i - 1) % 26;
      ColumnValueOfLetters(q);
      var s := Letters(i);
      assert s[..|s| - 1] == Letters(q);
      assert LetterDigit(s[|s| - 1]) == rem + 1;
    }
  }

  /** Every non-empty upper-case word is the letters of exactly the column it denotes. */
  lemma {:induction false} LettersOfColumnValue(s: string)
    requires AllUpperLetters(s)
    ensures ColumnValue(s) >= 0
    ensures s != [] ==> ColumnValue(s) >= 1
    ensures Letters(ColumnValue(s)) == s
  {
    if s != [] {
      var p, c := s[..|s| - 1], s[|s| - 1];
      LettersOfColumnValue(p);
      AlphabetIndex(c);
      assert s == p + [c];
      LettersAppend(ColumnValue(p), LetterDigit(c), ColumnValue(s));
    }
  }

  /** An upper-case letter sits in the alphabet at its digit minus one. */
  lemma AlphabetIndex(c: char)
    requires IsUpperChar(c)
    ensures 1 <= LetterDigit(c) <= 26 && Alphabet[LetterDigit(c) - 1] == c
  {
  }

  /** Appending the letter of digit `d` to column `v`'s letters gives column `26 * v + d`. */
  lemma LettersAppend(v: nat, d: int, i: nat)
    requires 1 <= d <= 26 && i == v * 26 + d
    ensures Letters(i) == Letters(v) + [Alphabet[d - 1]]
  {
    DivMod26(v, d - 1);
  }

  lemma DivMod26(q: nat, r: int)
    requires 0 <= r < 26
    ensures (q * 26 + r) / 26 == q && (q * 26 + r) % 26 == r
  {
  }

  /** Columns 1 to 26 are a single letter. */
  lemma SingleLetter(i: nat)
    requires 1 <= i <= 26
    ensures Letters(i) == [Alphabet[i - 1]]
  {
    LettersAppend(0, i, i);
    assert Letters(0) == "";
  }

  /** The round trips of the codec on the inputs the source accepts. */
  lemma ColumnRoundTrips(i: int, s: string)
    ensures i >= 1 ==> ColumnValue(Upper(Letters(i))) == i
    ensures IsAlpha(s) ==> ColumnValue(Upper(s)) >= 1 && Letters(ColumnValue(Upper(s))) == Upper(s)
  {
    if i >= 1 {
      LettersShape(i);
      ColumnValueOfLetters(i);
      assert Upper(Letters(i)) == Letters(i);
    }
    if IsAlpha(s) {
      LettersOfColumnValue(Upper(s));
    }
  }

  /** Converting fixed points of the codec. */
  lemma ColumnExamples()
    ensures Letters(1) == "A" && Letters(26) == "Z" && Letters(27) == "AA"
    ensures Letters(702) == "ZZ" && Letters(703) == "AAA"
    ensures ColumnValue("A") == 1 && ColumnValue("Z") == 26 && ColumnValue("AA") == 27
  {
    assert Letters(0) == "";
    assert Letters(1) == "A";
    assert Letters(26) == "Z";
    assert Letters(27) == Letters(1) + "A";
    assert Letters(702) == Letters(26) + "Z";
    assert Letters(703) == Letters(27) + "A";
    assert "AA"[..1] == "A";
  }

  /** The table inside `nombre_mes_a_numero`. */
  const MapaMeses: map<string, string> := map[
    "ENERO" := "01", "FEBRERO" := "02", "MARZO" := "03", "ABRIL" := "04",
    "MAYO" := "05", "JUNIO" := "06", "JULIO" := "07", "AGOSTO" := "08",
    "SEPTIEMBRE" := "09", "OCTUBRE" := "10", "NOVIEMBRE" := "11", "DICIEMBRE" := "12"]

  /** The twelve two-digit month numbers. */
  const NumerosMes: set<string> := {"01", "02", "03", "04", "05", "06", "07", "08", "09", "10", "11", "12"}

  /** `nombre_mes_a_numero`: the table looked up with the upper-cased name. */
  function NombreMesANumero(nombreMes: string): (r: Option<string>)
    ensures r.Some? <==> Upper(nombreMes) in MapaMeses
    ensures r.Some? ==> r.value in NumerosMes
    ensures r.Some? ==> MapaMeses[Upper(nombreMes)] == r.value
  {
    if Upper(nombreMes) in MapaMeses then Some(MapaMeses[Upper(nombreMes)]) else None
  }

  /** The month lookup ignores case: a name and its upper-cased form agree. */
  lemma MonthLookupIgnoresCase(nombreMes: string)
    ensures NombreMesANumero(nombreMes) == NombreMesANumero(Upper(nombreMes))
    ensures NombreMesANumero(Lower(nombreMes)) == NombreMesANumero(nombreMes)
  {
    UpperIdempotent(nombreMes);
    assert Upper(Lower(nombreMes)) == Upper(nombreMes);
  }

  /** Distinct month names map to distinct numbers. */
  lemma MonthTableBijective()
    ensures forall a, b :: a in MapaMeses && b in MapaMeses && a != b ==> MapaMeses[a] != MapaMeses[b]
  {
  }
}
