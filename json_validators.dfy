/**
 * `src/json_validators.py`: `ValidadorJSON`, the engine that checks a
 * report against rules read from a JSON file.
 *
 * A rule holds sub-rules `lhs operator rhs`; each side is a constant or a
 * prestación whose row in the glosa says which sheet, row and first column
 * to read. A rule whose sub-rules name several series is skipped unless
 * every one of them was found for the same establishment and month. The
 * sub-rules' results are combined with AND or OR, and a failing rule adds
 * one message built from every sub-rule's sentence.
 *
 * The functions below specify each step; the methods of `ValidadorJSON`
 * are the source's loops, proved equal to them.
 */
module JsonValidators {
  import opened Wrappers
  import opened Values
  import opened Utils
  import opened XlsmParser
  import opened GlosaParser
  import opened ScanFiles

  // ---------------------------------------------------------------------
  // Rules as read from JSON
  // ---------------------------------------------------------------------

  /**
   * The columns a prestación operand reads, as its keys decide:
   * "column_offset" wins; else both "column_offset_start" and
   * "column_offset_end"; else neither.
   */
  datatype Columnas =
    | Desplazamiento(offset: int)
    | Rango(offsetInicio: int, offsetFin: int)
    | SinColumnas

  /** An operand of `type` "constant" or "prestacion"; `series` is the optional "series" key. */
  datatype Operando =
    | Constante(value: Value, series: Option<string>)
    | Prestacion(codigo: Value, series: Option<string>, columnas: Columnas)

  /** One entry of a rule's `conditions.rules`. */
  datatype SubRegla = SubRegla(lhs: Operando, operator: string, rhs: Operando)

  /** A validation: its optional "name", optional "logical_operator" and sub-rules. */
  datatype Regla = Regla(name: Option<string>, logicalOperator: Option<string>, rules: seq<SubRegla>)

  /** The dictionary `_obtener_valor` returns. */
  datatype Info = Info(valor: Value, textoPrestacion: string, columnaFormateada: string)

  /** What the engine reads besides the rule: the report and its reader's fields, the glosas, availability. */
  datatype Contexto = Contexto(
    wb: Option<Workbook>,
    codigo: string,
    serie: string,
    mes: string,
    glosas: Glosas,
    disponibles: Disponibles)

  // ---------------------------------------------------------------------
  // Comparison and operator text
  // ---------------------------------------------------------------------

  /** The six operators both tables know. */
  predicate EsOperador(op: string) {
    op == "==" || op == "!=" || op == "<" || op == "<=" || op == ">" || op == ">="
  }

  predicate EsOrden(op: string) {
    op == "<" || op == "<=" || op == ">" || op == ">="
  }

  /** Python's `type(v).__name__`. */
  function NombreTipo(v: Value): string {
    match v
    case Empty => "NoneType"
    case Int(_) => "int"
    case Text(_) => "str"
  }

  /** `a < b` on two values of the same kind. */
  predicate Menor(a: Value, b: Value)
    requires (a.Int? && b.Int?) || (a.Text? && b.Text?)
  {
    if a.Int? then a.n < b.n else LexLess(a.s, b.s)
  }

  /**
   * `_realizar_comparacion`: `==` and `!=` compare anything; the four
   * orderings compare two numbers or two strings and raise `TypeError`
   * otherwise; an unknown operator is false.
   */
  function Comparar(a: Value, op: string, b: Value): (r: Result<bool, Error>)
    ensures r.Err? <==> EsOrden(op) && !((a.Int? && b.Int?) || (a.Text? && b.Text?))
    ensures !EsOperador(op) ==> r == Ok(false)
  {
    if op == "==" then Ok(a == b)
    else if op == "!=" then Ok(a != b)
    else if EsOrden(op) then
      if (a.Int? && b.Int?) || (a.Text? && b.Text?) then
        if op == "<" then Ok(Menor(a, b))
        else if op == "<=" then Ok(Menor(a, b) || a == b)
        else if op == ">" then Ok(Menor(b, a))
        else Ok(Menor(b, a) || a == b)
      else Err(TypeError("'" + op + "' not supported between instances of '" + NombreTipo(a)
                         + "' and '" + NombreTipo(b) + "'"))
    else Ok(false)
  }

  /** `_obtener_texto_operador`: the Spanish words for an operator, the operator itself otherwise. */
  function TextoOperador(op: string): (r: string)
    ensures r == op <==> !EsOperador(op)
  {
    if op == "==" then "igual a"
    else if op == "!=" then "diferente de"
    else if op == "<" then "menor que"
    else if op == "<=" then "menor o igual que"
    else if op == ">" then "mayor que"
    else if op == ">=" then "mayor o igual que"
    else op
  }

  // ---------------------------------------------------------------------
  // Operand values
  // ---------------------------------------------------------------------

  /** What the range loop accumulates: the sum of the numeric cells and the letters visited. */
  datatype Suma = Suma(total: int, letras: seq<string>)

  /**
   * The range loop over offsets `s..e`: each column is `inicio + offset`,
   * converting it raises below 1, and only numeric cells are added.
   */
  function SumaRango(wb: Option<Workbook>, hoja: string, fila: int, inicio: int, s: int, e: int)
    : Result<Suma, Error>
    decreases if e < s then 0 else e - s + 1
  {
    if e < s then Ok(Suma(0, []))
    else
      var previa :- SumaRango(wb, hoja, fila, inicio, s, e - 1);
      var indiceCol := inicio + e;
      if indiceCol < 1 then Err(InvalidIndexError)
      else
        var letra := Letters(indiceCol);
        var v := LeerCelda(wb, hoja, letra, fila);
        Ok(Suma(previa.total + Numero(v), previa.letras + [letra]))
  }

  /** The location text of a range: one column, a span of columns, or nothing. */
  function ColumnasTexto(letras: seq<string>): string {
    if |letras| == 1 then "Columna " + letras[0]
    else if |letras| > 1 then "Columnas " + letras[0] + " a " + letras[|letras| - 1]
    else ""
  }

  /** The label of a prestación the glosa does not have. */
  function TextoDesconocida(codigo: Value, serie: string): string {
    "Prestación '" + Render(codigo) + "' (Serie " + serie + ")"
  }

  /** `_obtener_valor`. */
  function ValorSpec(ctx: Contexto, operando: Operando): Result<Info, Error>
  {
    match operando
    case Constante(v, _) => Ok(Info(v, "valor constante", ""))
    case Prestacion(codigo, series, columnas) =>
      var serie := series.GetOr(ctx.serie);
      match InfoPrestacion(ctx.glosas, serie, codigo)
      case None => Ok(Info(Empty, TextoDesconocida(codigo, serie), "N/A"))
      case Some(fila) =>
        match columnas
        case Desplazamiento(o) =>
          if fila.inicio + o < 1 then Err(InvalidIndexError)
          else
            var letra := Letters(fila.inicio + o);
            Ok(Info(LeerCelda(ctx.wb, fila.hoja, letra, fila.linea), fila.textoPrestacion, "Columna " + letra))
        case Rango(s, e) =>
          var suma :- SumaRango(ctx.wb, fila.hoja, fila.linea, fila.inicio, s, e);
          Ok(Info(Int(suma.total), fila.textoPrestacion, ColumnasTexto(suma.letras)))
        case SinColumnas => Ok(Info(Empty, fila.textoPrestacion, ""))
  }

  // ---------------------------------------------------------------------
  // Rules
  // ---------------------------------------------------------------------

  /** The "series" an operand names, if any. */
  function SeriesDe(o: Operando): set<string> {
    if o.series.Some? then {o.series.value} else {}
  }

  /** `series_en_regla`: every series named on either side of any sub-rule. */
  function SeriesEnRegla(subs: seq<SubRegla>): set<string>
    decreases |subs|
  {
    if subs == [] then {} else SeriesDe(subs[0].lhs) + SeriesDe(subs[0].rhs) + SeriesEnRegla(subs[1..])
  }

  /** The series found for the report's establishment and month; none for an unknown pair. */
  function DisponiblesPara(ctx: Contexto): seq<string> {
    if (ctx.codigo, ctx.mes) in ctx.disponibles then ctx.disponibles[(ctx.codigo, ctx.mes)] else []
  }

  /** The inter-series gate: several series named, not all of them found. */
  predicate Omitida(ctx: Contexto, regla: Regla) {
    var series := SeriesEnRegla(regla.rules);
    |series| > 1 && !(series <= (set s | s in DisponiblesPara(ctx)))
  }

  /** `logical_operator`, "AND" when absent, upper-cased. */
  function OperadorLogico(regla: Regla): string {
    Upper(regla.logicalOperator.GetOr("AND"))
  }

  /** `all` under AND, `any` under OR, false under anything else. */
  predicate Combinar(op: string, resultados: seq<bool>) {
    if op == "AND" then forall i :: 0 <= i < |resultados| ==> resultados[i]
    else if op == "OR" then exists i :: 0 <= i < |resultados| && resultados[i]
    else false
  }

  /** What one sub-rule contributes: its result and its sentences. */
  datatype Resultado = Resultado(cumple: bool, mensajes: seq<string>)

  function MensajeFaltante(info: Info): string {
    "Valor no encontrado para '" + info.textoPrestacion + "' en " + info.columnaFormateada + "."
  }

  /** The sentence of a sub-rule whose two values were found. */
  function MensajeSubRegla(sub: SubRegla, lhs: Info, rhs: Info): string {
    if sub.rhs.Constante? then
      "'" + lhs.textoPrestacion + "' (" + lhs.columnaFormateada + ") debe ser "
      + TextoOperador(sub.operator) + " " + Render(rhs.valor) + "."
    else
      "'" + lhs.textoPrestacion + "' (" + lhs.columnaFormateada + ") debe ser "
      + TextoOperador(sub.operator) + " '" + rhs.textoPrestacion + "' (" + rhs.columnaFormateada + ")."
  }

  /** One pass of the sub-rule loop: a missing value fails without comparing. */
  function EvaluarSubRegla(ctx: Contexto, sub: SubRegla): Result<Resultado, Error>
  {
    var lhs :- ValorSpec(ctx, sub.lhs);
    var rhs :- ValorSpec(ctx, sub.rhs);
    if lhs.valor.Empty? || rhs.valor.Empty? then
      Ok(Resultado(false, (if lhs.valor.Empty? then [MensajeFaltante(lhs)] else [])
                          + (if rhs.valor.Empty? then [MensajeFaltante(rhs)] else [])))
    else
      var cumple :- Comparar(lhs.valor, sub.operator, rhs.valor);
      Ok(Resultado(cumple, [MensajeSubRegla(sub, lhs, rhs)]))
  }

  /** The results and sentences of all sub-rules in order. */
  datatype Evaluacion = Evaluacion(resultados: seq<bool>, mensajes: seq<string>)

  function EvaluarSubReglas(ctx: Contexto, subs: seq<SubRegla>): Result<Evaluacion, Error>
    decreases |subs|
  {
    if subs == [] then Ok(Evaluacion([], []))
    else
      var p :- EvaluarSubRegla(ctx, subs[0]);
      var resto :- EvaluarSubReglas(ctx, subs[1..]);
      Ok(Evaluacion([p.cumple] + resto.resultados, p.mensajes + resto.mensajes))
  }

  /** `sep.join(partes)`. */
  function Unir(partes: seq<string>, sep: string): string
    decreases |partes|
  {
    if partes == [] then ""
    else if |partes| == 1 then partes[0]
    else partes[0] + sep + Unir(partes[1..], sep)
  }

  function PrefijoError(nombre: string): string {
    "Validación '" + nombre + "' falló: "
  }

  /** `_evaluar_regla`: `None` when the rule passes or is skipped, else its message. */
  function ReglaSpec(ctx: Contexto, regla: Regla): Result<Option<string>, Error>
  {
    if Omitida(ctx, regla) then Ok(None)
    else
      var ev :- EvaluarSubReglas(ctx, regla.rules);
      var op := OperadorLogico(regla);
      if Combinar(op, ev.resultados) then Ok(None)
      else Ok(Some(PrefijoError(regla.name.GetOr("sin nombre")) + Unir(ev.mensajes, " " + op + " ")))
  }

  /** The messages a rule leaves in the list. */
  function Emitidos(r: Result<Option<string>, Error>): seq<string> {
    if r.Ok? && r.value.Some? then [r.value.value] else []
  }

  /** Where `validar` stops: the errors so far, and the exception if one escaped. */
  datatype Ejecucion = Ejecucion(errores: seq<string>, excepcion: Option<Error>)

  /** `validar` over `reglas`: rules in order, the first exception ending the run. */
  function Ejecutar(ctx: Contexto, reglas: seq<Regla>): Ejecucion
    decreases |reglas|
  {
    if reglas == [] then Ejecucion([], None)
    else match ReglaSpec(ctx, reglas[0])
      case Err(e) => Ejecucion([], Some(e))
      case Ok(m) =>
        var resto := Ejecutar(ctx, reglas[1..]);
        Ejecucion(Emitidos(Ok(m)) + resto.errores, resto.excepcion)
  }

  // ---------------------------------------------------------------------
  // Properties
  // ---------------------------------------------------------------------

  /**
   * On two numbers or two strings the orderings are total and consistent:
   * exactly one of `<`, `==`, `>` holds, `<=` and `>=` are the negations of
   * `>` and `<`, and `>` is `<` with the sides swapped.
   */
  lemma CompararOrden(a: Value, b: Value)
    requires (a.Int? && b.Int?) || (a.Text? && b.Text?)
    ensures Comparar(a, "<", b).Ok? && Comparar(a, ">", b).Ok?
    ensures Comparar(a, "<", b).value || a == b || Comparar(a, ">", b).value
    ensures !(Comparar(a, "<", b).value && Comparar(a, ">", b).value)
    ensures a == b ==> !Comparar(a, "<", b).value
    ensures Comparar(a, "<=", b) == Ok(!Comparar(a, ">", b).value)
    ensures Comparar(a, ">=", b) == Ok(!Comparar(a, "<", b).value)
    ensures Comparar(a, ">", b) == Comparar(b, "<", a)
    ensures Comparar(a, "!=", b) == Ok(!Comparar(a, "==", b).value)
  {
    if a.Text? {
      LexTrichotomy(a.s, b.s);
    }
  }

  /** The range loop raises exactly when the range is not empty and its first column is below 1. */
  lemma {:induction false} SumaRangoFalla(wb: Option<Workbook>, hoja: string, fila: int, inicio: int, s: int, e: int)
    ensures SumaRango(wb, hoja, fila, inicio, s, e).Err? <==> s <= e && inicio + s < 1
    ensures SumaRango(wb, hoja, fila, inicio, s, e).Err? ==> SumaRango(wb, hoja, fila, inicio, s, e).error == InvalidIndexError
    decreases if e < s then 0 else e - s + 1
  {
    if s <= e {
      SumaRangoFalla(wb, hoja, fila, inicio, s, e - 1);
    }
  }

  /** The letters visited are those of columns `inicio + s` to `inicio + e`, in order. */
  lemma {:induction false} SumaRangoLetras(wb: Option<Workbook>, hoja: string, fila: int, inicio: int, s: int, e: int)
    requires SumaRango(wb, hoja, fila, inicio, s, e).Ok?
    ensures |SumaRango(wb, hoja, fila, inicio, s, e).value.letras| == if e < s then 0 else e - s + 1
    ensures forall j :: 0 <= j < |SumaRango(wb, hoja, fila, inicio, s, e).value.letras| ==>
      inicio + s + j >= 1 && SumaRango(wb, hoja, fila, inicio, s, e).value.letras[j] == Letters(inicio + s + j)
    decreases if e < s then 0 else e - s + 1
  {
    if s <= e {
      SumaRangoFalla(wb, hoja, fila, inicio, s, e);
      SumaRangoLetras(wb, hoja, fila, inicio, s, e - 1);
    }
  }

  /** Without the sheet every cell reads as empty and the range's total is 0. */
  lemma {:induction false} SumaRangoSinHoja(wb: Option<Workbook>, hoja: string, fila: int, inicio: int, s: int, e: int)
    requires SheetOf(wb, hoja).None?
    requires SumaRango(wb, hoja, fila, inicio, s, e).Ok?
    ensures SumaRango(wb, hoja, fila, inicio, s, e).value.total == 0
    decreases if e < s then 0 else e - s + 1
  {
    if s <= e {
      SumaRangoSinHoja(wb, hoja, fila, inicio, s, e - 1);
    }
  }

  /** One more offset adds the cell's number, if it holds one, and its letter. */
  lemma SumaRangoPaso(wb: Option<Workbook>, hoja: string, fila: int, inicio: int, s: int, e: int)
    requires 1 <= inicio + s <= inicio + e
    ensures SumaRango(wb, hoja, fila, inicio, s, e - 1).Ok?
    ensures SumaRango(wb, hoja, fila, inicio, s, e) == Ok(Suma(
      SumaRango(wb, hoja, fila, inicio, s, e - 1).value.total
        + Numero(LeerCelda(wb, hoja, Letters(inicio + e), fila)),
      SumaRango(wb, hoja, fila, inicio, s, e - 1).value.letras + [Letters(inicio + e)]))
  {
    SumaRangoFalla(wb, hoja, fila, inicio, s, e - 1);
  }

  /** The number a cell adds to a range's total: its value when numeric, else 0. */
  function Numero(v: Value): int {
    if v.Int? then v.n else 0
  }

  /** Reference: the sum of the numeric cells of columns `c0` to `c1` of the row, read one by one. */
  function SumaCeldas(wb: Option<Workbook>, hoja: string, fila: int, c0: int, c1: int): int
    requires 1 <= c0
    decreases if c1 < c0 then 0 else c1 - c0 + 1
  {
    if c1 < c0 then 0 else SumaCeldas(wb, hoja, fila, c0, c1 - 1) + Numero(LeerCelda(wb, hoja, Letters(c1), fila))
  }

  /** The loop's step: offset `k` adds its letter and its cell's number. */
  lemma SumaRangoSigue(wb: Option<Workbook>, hoja: string, fila: int, inicio: int, s: int, k: int,
                       total: int, letras: seq<string>, v: Value)
    requires s <= k && inicio + k >= 1
    requires SumaRango(wb, hoja, fila, inicio, s, k - 1) == Ok(Suma(total, letras))
    requires v == LeerCelda(wb, hoja, Letters(inicio + k), fila)
    ensures SumaRango(wb, hoja, fila, inicio, s, k)
      == Ok(Suma(if v.Int? then total + v.n else total, letras + [Letters(inicio + k)]))
  {
    SumaRangoFalla(wb, hoja, fila, inicio, s, k - 1);
    SumaRangoPaso(wb, hoja, fila, inicio, s, k);
  }

  /** The loop's exit on a column below 1: the whole range raises the same error. */
  lemma SumaRangoCorte(wb: Option<Workbook>, hoja: string, fila: int, inicio: int, s: int, k: int, e: int)
    requires s <= k <= e && inicio + k < 1
    ensures SumaRango(wb, hoja, fila, inicio, s, e) == Err(InvalidIndexError)
  {
    SumaRangoFalla(wb, hoja, fila, inicio, s, e);
  }

  /** The range's total is the sum of the numeric cells of columns `inicio + s` to `inicio + e`. */
  lemma {:induction false} SumaRangoTotal(wb: Option<Workbook>, hoja: string, fila: int, inicio: int, s: int, e: int)
    requires 1 <= inicio + s
    ensures SumaRango(wb, hoja, fila, inicio, s, e).Ok?
    ensures SumaRango(wb, hoja, fila, inicio, s, e).value.total == SumaCeldas(wb, hoja, fila, inicio + s, inicio + e)
    decreases if e < s then 0 else e - s + 1
  {
    if s <= e {
      SumaRangoTotal(wb, hoja, fila, inicio, s, e - 1);
      SumaRangoTotalPaso(wb, hoja, fila, inicio, s, e);
    }
  }

  /** The inductive step of `SumaRangoTotal`. */
  lemma SumaRangoTotalPaso(wb: Option<Workbook>, hoja: string, fila: int, inicio: int, s: int, e: int)
    requires 1 <= inicio + s <= inicio + e
    requires SumaRango(wb, hoja, fila, inicio, s, e - 1).Ok?
    requires SumaRango(wb, hoja, fila, inicio, s, e - 1).value.total == SumaCeldas(wb, hoja, fila, inicio + s, inicio + e - 1)
    ensures SumaRango(wb, hoja, fila, inicio, s, e).Ok?
    ensures SumaRango(wb, hoja, fila, inicio, s, e).value.total == SumaCeldas(wb, hoja, fila, inicio + s, inicio + e)
  {
    SumaRangoPaso(wb, hoja, fila, inicio, s, e);
  }

  /** The location text of a range: "" when empty, one column, or first and last. */
  lemma ColumnasDeRango(wb: Option<Workbook>, hoja: string, fila: int, inicio: int, s: int, e: int)
    requires SumaRango(wb, hoja, fila, inicio, s, e).Ok?
    ensures e < s ==> ColumnasTexto(SumaRango(wb, hoja, fila, inicio, s, e).value.letras) == ""
    ensures s <= e ==> inicio + s >= 1
    ensures s == e ==> ColumnasTexto(SumaRango(wb, hoja, fila, inicio, s, e).value.letras) == "Columna " + Letters(inicio + s)
    ensures s < e ==>
      ColumnasTexto(SumaRango(wb, hoja, fila, inicio, s, e).value.letras)
      == "Columnas " + Letters(inicio + s) + " a " + Letters(inicio + e)
  {
    SumaRangoFalla(wb, hoja, fila, inicio, s, e);
    SumaRangoLetras(wb, hoja, fila, inicio, s, e);
  }

  /** An operand without "series" reads the report's own series. */
  lemma SerieImplicita(ctx: Contexto, o: Operando)
    requires o.Prestacion? && o.series.None?
    ensures ValorSpec(ctx, o) == ValorSpec(ctx, o.(series := Some(ctx.serie)))
  {
  }

  /**
   * A sub-rule holds exactly when both values were found and the
   * comparison is true; it contributes one sentence, or one per missing value.
   */
  lemma SubReglaResultado(ctx: Contexto, sub: SubRegla)
    requires EvaluarSubRegla(ctx, sub).Ok?
    ensures ValorSpec(ctx, sub.lhs).Ok? && ValorSpec(ctx, sub.rhs).Ok?
    ensures EvaluarSubRegla(ctx, sub).value.cumple <==>
      && !ValorSpec(ctx, sub.lhs).value.valor.Empty? && !ValorSpec(ctx, sub.rhs).value.valor.Empty?
      && Comparar(ValorSpec(ctx, sub.lhs).value.valor, sub.operator, ValorSpec(ctx, sub.rhs).value.valor) == Ok(true)
    ensures 1 <= |EvaluarSubRegla(ctx, sub).value.mensajes| <= 2
    ensures |EvaluarSubRegla(ctx, sub).value.mensajes| == 2 <==>
      ValorSpec(ctx, sub.lhs).value.valor.Empty? && ValorSpec(ctx, sub.rhs).value.valor.Empty?
  {
  }

  /** A prestación the glosa lacks fails its sub-rule, naming the code and series. */
  lemma SubReglaDesconocida(ctx: Contexto, sub: SubRegla)
    requires sub.lhs.Prestacion?
    requires InfoPrestacion(ctx.glosas, sub.lhs.series.GetOr(ctx.serie), sub.lhs.codigo).None?
    requires ValorSpec(ctx, sub.rhs).Ok?
    ensures EvaluarSubRegla(ctx, sub).Ok?
    ensures !EvaluarSubRegla(ctx, sub).value.cumple
    ensures EvaluarSubRegla(ctx, sub).value.mensajes[0] ==
      "Valor no encontrado para '" + TextoDesconocida(sub.lhs.codigo, sub.lhs.series.GetOr(ctx.serie)) + "' en N/A."
  {
  }

  /**
   * The sub-rules evaluate without raising exactly when each does; then
   * there is one result per sub-rule, in order, and one or two sentences each.
   */
  lemma {:induction false} EvaluacionForma(ctx: Contexto, subs: seq<SubRegla>)
    ensures EvaluarSubReglas(ctx, subs).Ok? <==> forall i :: 0 <= i < |subs| ==> EvaluarSubRegla(ctx, subs[i]).Ok?
    ensures EvaluarSubReglas(ctx, subs).Ok? ==>
      && |EvaluarSubReglas(ctx, subs).value.resultados| == |subs|
      && (forall i :: 0 <= i < |subs| ==>
            EvaluarSubReglas(ctx, subs).value.resultados[i] == EvaluarSubRegla(ctx, subs[i]).value.cumple)
      && |subs| <= |EvaluarSubReglas(ctx, subs).value.mensajes| <= 2 * |subs|
    decreases |subs|
  {
    if subs != [] {
      EvaluacionForma(ctx, subs[1..]);
      if EvaluarSubRegla(ctx, subs[0]).Ok? {
        SubReglaResultado(ctx, subs[0]);
      }
      assert forall i :: 1 <= i < |subs| ==> subs[1..][i - 1] == subs[i];
    }
  }

  /** Under AND (the default) a rule passes exactly when every sub-rule holds. */
  lemma ReglaY(ctx: Contexto, regla: Regla)
    requires !Omitida(ctx, regla) && OperadorLogico(regla) == "AND"
    requires EvaluarSubReglas(ctx, regla.rules).Ok?
    ensures ReglaSpec(ctx, regla) == Ok(None) <==>
      forall i :: 0 <= i < |regla.rules| ==>
        EvaluarSubRegla(ctx, regla.rules[i]).Ok? && EvaluarSubRegla(ctx, regla.rules[i]).value.cumple
  {
    EvaluacionForma(ctx, regla.rules);
  }

  /** Under OR a rule passes exactly when some sub-rule holds. */
  lemma ReglaO(ctx: Contexto, regla: Regla)
    requires !Omitida(ctx, regla) && OperadorLogico(regla) == "OR"
    requires EvaluarSubReglas(ctx, regla.rules).Ok?
    ensures ReglaSpec(ctx, regla) == Ok(None) <==>
      exists i :: 0 <= i < |regla.rules| &&
        EvaluarSubRegla(ctx, regla.rules[i]).Ok? && EvaluarSubRegla(ctx, regla.rules[i]).value.cumple
  {
    EvaluacionForma(ctx, regla.rules);
  }

  /** Under any other logical operator a rule that is evaluated always fails. */
  lemma ReglaOtroOperador(ctx: Contexto, regla: Regla)
    requires !Omitida(ctx, regla) && OperadorLogico(regla) != "AND" && OperadorLogico(regla) != "OR"
    requires EvaluarSubReglas(ctx, regla.rules).Ok?
    ensures ReglaSpec(ctx, regla).Ok? && ReglaSpec(ctx, regla).value.Some?
  {
  }

  /** The logical operator is matched ignoring case. */
  lemma OperadorSinMayusculas(nombre: Option<string>, subs: seq<SubRegla>)
    ensures OperadorLogico(Regla(nombre, Some("or"), subs)) == "OR"
    ensures OperadorLogico(Regla(nombre, Some("And"), subs)) == "AND"
    ensures OperadorLogico(Regla(nombre, None, subs)) == "AND"
  {
  }

  /** A failing rule's message starts with its name, "sin nombre" when it has none. */
  lemma MensajeDeRegla(ctx: Contexto, regla: Regla)
    requires ReglaSpec(ctx, regla).Ok? && ReglaSpec(ctx, regla).value.Some?
    ensures !Omitida(ctx, regla)
    ensures StartsWith(ReglaSpec(ctx, regla).value.value, PrefijoError(regla.name.GetOr("sin nombre")))
  {
    var ev := EvaluarSubReglas(ctx, regla.rules).value;
    var p := PrefijoError(regla.name.GetOr("sin nombre"));
    var m := p + Unir(ev.mensajes, " " + OperadorLogico(regla) + " ");
    assert m[..|p|] == p;
  }

  /** With a single sub-rule, the message is that sub-rule's sentences joined by the operator. */
  lemma MensajeUnaSubRegla(ctx: Contexto, regla: Regla)
    requires |regla.rules| == 1
    requires ReglaSpec(ctx, regla).Ok? && ReglaSpec(ctx, regla).value.Some?
    ensures ReglaSpec(ctx, regla).value.value ==
      PrefijoError(regla.name.GetOr("sin nombre"))
      + Unir(EvaluarSubRegla(ctx, regla.rules[0]).value.mensajes, " " + OperadorLogico(regla) + " ")
  {
    assert regla.rules[1..] == [];
    var p := EvaluarSubRegla(ctx, regla.rules[0]).value;
    assert EvaluarSubReglas(ctx, regla.rules).value.mensajes == p.mensajes + [];
    assert p.mensajes + [] == p.mensajes;
  }

  /** The sentences of a list of sub-rule outcomes, in order; an outcome that raised has none. */
  function Frases(rs: seq<Result<Resultado, Error>>): seq<string>
    decreases |rs|
  {
    if rs == [] then [] else (if rs[0].Ok? then rs[0].value.mensajes else []) + Frases(rs[1..])
  }

  /** The outcome of each sub-rule of `subs`, evaluated on its own. */
  function Resultados(ctx: Contexto, subs: seq<SubRegla>): (r: seq<Result<Resultado, Error>>)
    ensures |r| == |subs| && forall i :: 0 <= i < |subs| ==> r[i] == EvaluarSubRegla(ctx, subs[i])
  {
    seq(|subs|, i requires 0 <= i < |subs| => EvaluarSubRegla(ctx, subs[i]))
  }

  /** The sentences the sub-rule loop collects are those of each sub-rule, in order. */
  lemma {:induction false} SentenciasEnOrden(ctx: Contexto, subs: seq<SubRegla>)
    requires EvaluarSubReglas(ctx, subs).Ok?
    ensures EvaluarSubReglas(ctx, subs).value.mensajes == Frases(Resultados(ctx, subs))
    decreases |subs|
  {
    if subs != [] {
      SentenciasEnOrden(ctx, subs[1..]);
      assert Resultados(ctx, subs)[1..] == Resultados(ctx, subs[1..]);
    }
  }

  /**
   * A failing rule's message is its prefix followed by the sentences of
   * every sub-rule, in order, joined by " AND ", " OR " or whatever
   * operator the rule names.
   */
  lemma MensajeDeSubReglas(ctx: Contexto, regla: Regla)
    requires ReglaSpec(ctx, regla).Ok? && ReglaSpec(ctx, regla).value.Some?
    ensures ReglaSpec(ctx, regla).value.value ==
      PrefijoError(regla.name.GetOr("sin nombre"))
      + Unir(Frases(Resultados(ctx, regla.rules)), " " + OperadorLogico(regla) + " ")
  {
    SentenciasEnOrden(ctx, regla.rules);
  }

  /**
   * Availability comes from scanning a directory, whose series are
   * upper-case; so a rule naming several series, one of them with a
   * lower-case letter, is always skipped.
   */
  lemma OmitidaSerieMinuscula(ctx: Contexto, regla: Regla, dir: string, nombres: seq<string>, serie: string)
    requires ctx.disponibles == Escaneo(dir, nombres)
    requires |SeriesEnRegla(regla.rules)| > 1
    requires serie in SeriesEnRegla(regla.rules) && !NoLower(serie)
    ensures Omitida(ctx, regla)
    ensures ReglaSpec(ctx, regla) == Ok(None)
  {
    EscaneoForma(dir, nombres);
  }

  /** A rule naming at most one series is never skipped. */
  lemma UnaSerieNoSeOmite(ctx: Contexto, regla: Regla)
    requires |SeriesEnRegla(regla.rules)| <= 1
    ensures !Omitida(ctx, regla)
  {
  }

  /** A rule comparing two equal constants passes. */
  lemma ReglaConstantesIguales(ctx: Contexto)
    ensures ReglaSpec(ctx, Regla(Some("igualdad"), None,
                                 [SubRegla(Constante(Int(5), None), "==", Constante(Int(5), None))])) == Ok(None)
  {
    var sub := SubRegla(Constante(Int(5), None), "==", Constante(Int(5), None));
    assert SeriesEnRegla([sub]) == {};
    assert [sub][1..] == [];
  }

  /** A rule with one sub-rule evaluates to that sub-rule's result and sentences. */
  lemma EvaluarUna(ctx: Contexto, sub: SubRegla)
    requires EvaluarSubRegla(ctx, sub).Ok?
    ensures EvaluarSubReglas(ctx, [sub]) ==
      Ok(Evaluacion([EvaluarSubRegla(ctx, sub).value.cumple], EvaluarSubRegla(ctx, sub).value.mensajes))
  {
    assert [sub][1..] == [];
    var p := EvaluarSubRegla(ctx, sub).value;
    assert [p.cumple] + [] == [p.cumple] && p.mensajes + [] == p.mensajes;
  }

  /** `str(2)`. */
  lemma RenderDos()
    ensures Render(Int(2)) == "2"
  {
    assert NatToString(2) == [DigitChar(2)];
  }

  /** The sentence for `3 < 2` between constants. */
  lemma MensajeMenorQue()
    ensures MensajeSubRegla(SubRegla(Constante(Int(3), None), "<", Constante(Int(2), None)),
                            Info(Int(3), "valor constante", ""), Info(Int(2), "valor constante", ""))
      == "'valor constante' () debe ser menor que 2."
  {
    RenderDos();
    assert TextoOperador("<") == "menor que";
    var inicio := "'valor constante' () debe ser ";
    assert "'" + "valor constante" + "' (" + "" + ") debe ser " == inicio;
    assert inicio + "menor que" + " " + "2" + "." == "'valor constante' () debe ser menor que 2.";
  }

  /** Two constants that fail `<` give the sentence with the operator's Spanish text. */
  lemma SubReglaConstantesFalla(ctx: Contexto)
    ensures EvaluarSubRegla(ctx, SubRegla(Constante(Int(3), None), "<", Constante(Int(2), None)))
      == Ok(Resultado(false, ["'valor constante' () debe ser menor que 2."]))
  {
    MensajeMenorQue();
    assert Comparar(Int(3), "<", Int(2)) == Ok(false);
  }

  /** A rule whose only sub-rule fails reports its name and that sentence. */
  lemma ReglaConstantesFalla(ctx: Contexto)
    ensures ReglaSpec(ctx, Regla(Some("Prueba"), None,
                                 [SubRegla(Constante(Int(3), None), "<", Constante(Int(2), None))]))
      == Ok(Some(PrefijoError("Prueba") + "'valor constante' () debe ser menor que 2."))
  {
    var sub := SubRegla(Constante(Int(3), None), "<", Constante(Int(2), None));
    var regla := Regla(Some("Prueba"), None, [sub]);
    var m := "'valor constante' () debe ser menor que 2.";
    assert SeriesEnRegla([sub]) == {} by {
      assert [sub][1..] == [];
    }
    SubReglaConstantesFalla(ctx);
    EvaluarUna(ctx, sub);
    assert OperadorLogico(regla) == "AND";
    assert [false][0] == false;
    assert !Combinar("AND", [false]);
    assert Unir([m], " AND ") == m;
  }

  /**
   * A run that ends without an exception leaves no error exactly when
   * every rule passed or was skipped; an exception escapes exactly when
   * some rule raises, and there is at most one error per rule.
   */
  lemma {:induction false} EjecutarCorrecto(ctx: Contexto, reglas: seq<Regla>)
    ensures Ejecutar(ctx, reglas).excepcion.None? <==> forall i :: 0 <= i < |reglas| ==> ReglaSpec(ctx, reglas[i]).Ok?
    ensures Ejecutar(ctx, reglas).excepcion.None? ==>
      (Ejecutar(ctx, reglas).errores == [] <==> forall i :: 0 <= i < |reglas| ==> ReglaSpec(ctx, reglas[i]) == Ok(None))
    ensures |Ejecutar(ctx, reglas).errores| <= |reglas|
    decreases |reglas|
  {
    if reglas != [] {
      EjecutarCorrecto(ctx, reglas[1..]);
      assert forall i :: 1 <= i < |reglas| ==> reglas[1..][i - 1] == reglas[i];
    }
  }

  // ---------------------------------------------------------------------
  // The engine's loops
  // ---------------------------------------------------------------------

  /** `prefijo` in front of whatever the rest of the sub-rules evaluate to. */
  function Anteponer(resultados: seq<bool>, mensajes: seq<string>, resto: Result<Evaluacion, Error>)
    : Result<Evaluacion, Error>
  {
    match resto
    case Err(e) => Err(e)
    case Ok(ev) => Ok(Evaluacion(resultados + ev.resultados, mensajes + ev.mensajes))
  }

  /** One more sub-rule moves from the rest into the prefix, or ends the evaluation with its exception. */
  lemma AnteponerPaso(ctx: Contexto, subs: seq<SubRegla>, i: int, resultados: seq<bool>, mensajes: seq<string>)
    requires 0 <= i < |subs|
    ensures EvaluarSubRegla(ctx, subs[i]).Err? ==>
      Anteponer(resultados, mensajes, EvaluarSubReglas(ctx, subs[i..])) == Err(EvaluarSubRegla(ctx, subs[i]).error)
    ensures EvaluarSubRegla(ctx, subs[i]).Ok? ==>
      Anteponer(resultados, mensajes, EvaluarSubReglas(ctx, subs[i..]))
      == Anteponer(resultados + [EvaluarSubRegla(ctx, subs[i]).value.cumple],
                   mensajes + EvaluarSubRegla(ctx, subs[i]).value.mensajes,
                   EvaluarSubReglas(ctx, subs[i + 1..]))
  {
    assert subs[i..][1..] == subs[i + 1..];
    assert subs[i..][0] == subs[i];
    var p := EvaluarSubRegla(ctx, subs[i]);
    var resto := EvaluarSubReglas(ctx, subs[i + 1..]);
    if p.Ok? && resto.Ok? {
      assert resultados + ([p.value.cumple] + resto.value.resultados)
        == (resultados + [p.value.cumple]) + resto.value.resultados;
      assert mensajes + (p.value.mensajes + resto.value.mensajes)
        == (mensajes + p.value.mensajes) + resto.value.mensajes;
    }
  }

  lemma AnteponerInicio(ctx: Contexto, subs: seq<SubRegla>)
    ensures EvaluarSubReglas(ctx, subs) == Anteponer([], [], EvaluarSubReglas(ctx, subs[0..]))
  {
    assert subs[0..] == subs;
    var todas := EvaluarSubReglas(ctx, subs);
    if todas.Ok? {
      assert [] + todas.value.resultados == todas.value.resultados;
      assert [] + todas.value.mensajes == todas.value.mensajes;
    }
  }

  lemma AnteponerFin(ctx: Contexto, subs: seq<SubRegla>, resultados: seq<bool>, mensajes: seq<string>)
    ensures Anteponer(resultados, mensajes, EvaluarSubReglas(ctx, subs[|subs|..])) == Ok(Evaluacion(resultados, mensajes))
  {
    assert subs[|subs|..] == [];
    assert resultados + [] == resultados && mensajes + [] == mensajes;
  }

  /** A rule that is not skipped and whose sub-rules evaluate: passes, or fails with its message. */
  lemma ReglaEvaluada(ctx: Contexto, regla: Regla, ev: Evaluacion)
    requires !Omitida(ctx, regla) && EvaluarSubReglas(ctx, regla.rules) == Ok(ev)
    ensures ReglaSpec(ctx, regla) ==
      if Combinar(OperadorLogico(regla), ev.resultados) then Ok(None)
      else Ok(Some(PrefijoError(regla.name.GetOr("sin nombre")) + Unir(ev.mensajes, " " + OperadorLogico(regla) + " ")))
  {
  }

  /** The errors rules `0..i` left, in front of what the rest of the run gives. */
  function Seguir(previos: seq<string>, resto: Ejecucion): Ejecucion {
    Ejecucion(previos + resto.errores, resto.excepcion)
  }

  lemma SeguirPaso(ctx: Contexto, reglas: seq<Regla>, i: int, previos: seq<string>)
    requires 0 <= i < |reglas|
    ensures ReglaSpec(ctx, reglas[i]).Err? ==>
      Seguir(previos, Ejecutar(ctx, reglas[i..])) == Ejecucion(previos, Some(ReglaSpec(ctx, reglas[i]).error))
    ensures ReglaSpec(ctx, reglas[i]).Ok? ==>
      Seguir(previos, Ejecutar(ctx, reglas[i..]))
      == Seguir(previos + Emitidos(ReglaSpec(ctx, reglas[i])), Ejecutar(ctx, reglas[i + 1..]))
  {
    assert reglas[i..][1..] == reglas[i + 1..];
    assert reglas[i..][0] == reglas[i];
    assert previos + [] == previos;
  }

  /** `ValidadorJSON`: the rules, the glosas and the availability map it was built with, and its error list. */
  class ValidadorJSON {
    const reglas: seq<Regla>
    const lectorGlosa: LectorGlosa
    const archivosDisponibles: Disponibles
    var errores: seq<string>

    /**
     * `reglasLeidas` is the "validations" list of the JSON file, `None`
     * when the file is missing or malformed; then there are no rules.
     */
    constructor (reglasLeidas: Option<seq<Regla>>, lectorGlosa: LectorGlosa, archivosDisponibles: Disponibles)
      ensures reglas == reglasLeidas.GetOr([])
      ensures this.lectorGlosa == lectorGlosa && this.archivosDisponibles == archivosDisponibles
      ensures errores == []
    {
      reglas := reglasLeidas.GetOr([]);
      this.lectorGlosa := lectorGlosa;
      this.archivosDisponibles := archivosDisponibles;
      errores := [];
    }

    /** What the rules are evaluated against for the report `lector` reads. */
    function Ctx(lector: LectorXLSM): Contexto
      reads lectorGlosa
    {
      Contexto(lector.disco, lector.codigoEstablecimiento, lector.serie, lector.mes,
               lectorGlosa.glosas, archivosDisponibles)
    }

    /** `obtener_errores`. */
    method ObtenerErrores() returns (r: seq<string>)
      ensures r == errores
    {
      return errores;
    }

    /**
     * `validar`: clears the list, evaluates every rule in order and is true
     * when no rule added an error; an exception from a rule ends the run.
     */
    method Validar(lector: LectorXLSM) returns (r: Result<bool, Error>)
      requires lector.Valid()
      modifies this`errores, lector`libro
      ensures lector.Valid()
      ensures lector.libro == old(lector.libro) || lector.libro == lector.disco
      ensures errores == Ejecutar(Ctx(lector), reglas).errores
      ensures r == if Ejecutar(Ctx(lector), reglas).excepcion.Some?
                   then Err(Ejecutar(Ctx(lector), reglas).excepcion.value)
                   else Ok(errores == [])
    {
      errores := [];
      for i := 0 to |reglas|
        invariant lector.Valid()
        invariant lector.libro == old(lector.libro) || lector.libro == lector.disco
        invariant Ejecutar(Ctx(lector), reglas) == Seguir(errores, Ejecutar(Ctx(lector), reglas[i..]))
      {
        SeguirPaso(Ctx(lector), reglas, i, errores);
        var excepcion := EvaluarRegla(reglas[i], lector);
        if excepcion.Some? {
          return Err(excepcion.value);
        }
      }
      assert reglas[|reglas|..] == [];
      assert errores + [] == errores;
      return Ok(errores == []);
    }

    /**
     * `_evaluar_regla`: appends the rule's message when it fails; the
     * result is the exception evaluating it raised, if any.
     */
    method EvaluarRegla(regla: Regla, lector: LectorXLSM) returns (excepcion: Option<Error>)
      requires lector.Valid()
      modifies this`errores, lector`libro
      ensures lector.Valid()
      ensures lector.libro == old(lector.libro) || lector.libro == lector.disco
      ensures excepcion.Some? <==> ReglaSpec(Ctx(lector), regla).Err?
      ensures excepcion.Some? ==> excepcion.value == ReglaSpec(Ctx(lector), regla).error
      ensures errores == old(errores) + Emitidos(ReglaSpec(Ctx(lector), regla))
    {
      var reglasAVerificar := regla.rules;
      var operadorLogico := Upper(regla.logicalOperator.GetOr("AND"));

      var seriesEnRegla := SeriesEnRegla(reglasAVerificar);
      if |seriesEnRegla| > 1 {
        var claveArchivo := (lector.codigoEstablecimiento, lector.mes);
        var seriesDisponibles := if claveArchivo in archivosDisponibles then archivosDisponibles[claveArchivo] else [];
        if !(seriesEnRegla <= (set s | s in seriesDisponibles)) {
          return None;
        }
      }

      var evaluacion := EvaluarSubReglasDe(reglasAVerificar, lector);
      if evaluacion.Err? {
        return Some(evaluacion.error);
      }
      var resultados, mensajesRegla := evaluacion.value.resultados, evaluacion.value.mensajes;
      ReglaEvaluada(Ctx(lector), regla, evaluacion.value);

      var resultadoFinal := false;
      if operadorLogico == "AND" {
        resultadoFinal := forall k :: 0 <= k < |resultados| ==> resultados[k];
      } else if operadorLogico == "OR" {
        resultadoFinal := exists k :: 0 <= k < |resultados| && resultados[k];
      }

      if !resultadoFinal {
        var mensajeError := PrefijoError(regla.name.GetOr("sin nombre"));
        mensajeError := mensajeError + Unir(mensajesRegla, " " + operadorLogico + " ");
        AgregarError(mensajeError);
      }
      return None;
    }

    /** The loop of `_evaluar_regla` over the sub-rules, collecting results and sentences. */
    method EvaluarSubReglasDe(reglasAVerificar: seq<SubRegla>, lector: LectorXLSM) returns (r: Result<Evaluacion, Error>)
      requires lector.Valid()
      modifies lector`libro
      ensures lector.Valid()
      ensures lector.libro == old(lector.libro) || lector.libro == lector.disco
      ensures r == EvaluarSubReglas(Ctx(lector), reglasAVerificar)
    {
      ghost var ctx := Ctx(lector);
      var resultados: seq<bool> := [];
      var mensajesRegla: seq<string> := [];
      AnteponerInicio(ctx, reglasAVerificar);
      for i := 0 to |reglasAVerificar|
        invariant lector.Valid() && Ctx(lector) == ctx
        invariant lector.libro == old(lector.libro) || lector.libro == lector.disco
        invariant EvaluarSubReglas(ctx, reglasAVerificar)
          == Anteponer(resultados, mensajesRegla, EvaluarSubReglas(ctx, reglasAVerificar[i..]))
      {
        AnteponerPaso(ctx, reglasAVerificar, i, resultados, mensajesRegla);
        var paso := EvaluarSubReglaDe(reglasAVerificar[i], lector);
        if paso.Err? {
          return Err(paso.error);
        }
        resultados := resultados + [paso.value.cumple];
        mensajesRegla := mensajesRegla + paso.value.mensajes;
      }
      AnteponerFin(ctx, reglasAVerificar, resultados, mensajesRegla);
      return Ok(Evaluacion(resultados, mensajesRegla));
    }

    /** One pass of that loop: both values, then the missing-value sentences or the comparison and its sentence. */
    method EvaluarSubReglaDe(subRegla: SubRegla, lector: LectorXLSM) returns (r: Result<Resultado, Error>)
      requires lector.Valid()
      modifies lector`libro
      ensures lector.Valid()
      ensures lector.libro == old(lector.libro) || lector.libro == lector.disco
      ensures r == EvaluarSubRegla(Ctx(lector), subRegla)
    {
      var infoLhs :- ObtenerValor(subRegla.lhs, lector);
      var infoRhs :- ObtenerValor(subRegla.rhs, lector);
      var operador := subRegla.operator;

      if infoLhs.valor.Empty? || infoRhs.valor.Empty? {
        var mensajes: seq<string> := [];
        if infoLhs.valor.Empty? {
          mensajes := mensajes + [MensajeFaltante(infoLhs)];
        }
        if infoRhs.valor.Empty? {
          mensajes := mensajes + [MensajeFaltante(infoRhs)];
        }
        assert mensajes == (if infoLhs.valor.Empty? then [MensajeFaltante(infoLhs)] else [])
                           + (if infoRhs.valor.Empty? then [MensajeFaltante(infoRhs)] else []);
        return Ok(Resultado(false, mensajes));
      }
      var resultado :- Comparar(infoLhs.valor, operador, infoRhs.valor);
      var mensajeSubRegla := MensajeSubRegla(subRegla, infoLhs, infoRhs);
      return Ok(Resultado(resultado, [mensajeSubRegla]));
    }

    /** `_obtener_valor`: the value, label and location of one operand. */
    method ObtenerValor(operando: Operando, lector: LectorXLSM) returns (r: Result<Info, Error>)
      requires lector.Valid()
      modifies lector`libro
      ensures lector.Valid()
      ensures lector.libro == old(lector.libro) || lector.libro == lector.disco
      ensures r == ValorSpec(Ctx(lector), operando)
    {
      match operando
      case Constante(valor, _) =>
        return Ok(Info(valor, "valor constante", ""));
      case Prestacion(codigo, series, columnas) =>
        var serie := series.GetOr(lector.serie);
        var infoPrestacion := InfoPrestacion(lectorGlosa.glosas, serie, codigo);
        if infoPrestacion.None? {
          return Ok(Info(Empty, TextoDesconocida(codigo, serie), "N/A"));
        }
        var nombreHoja := infoPrestacion.value.hoja;
        var fila := infoPrestacion.value.linea;
        var indiceColInicio := infoPrestacion.value.inicio;

        match columnas
        case Desplazamiento(offset) =>
          var celda :- LeerColumna(lector, nombreHoja, fila, indiceColInicio + offset);
          var (letraCol, valorCelda) := celda;
          return Ok(Info(valorCelda, infoPrestacion.value.textoPrestacion, "Columna " + letraCol));
        case Rango(offsetInicio, offsetFin) =>
          var suma :- SumarRango(lector, nombreHoja, fila, indiceColInicio, offsetInicio, offsetFin);
          var letrasColumnas := suma.letras;
          var columnaFormateada := "";
          if |letrasColumnas| == 1 {
            columnaFormateada := "Columna " + letrasColumnas[0];
          } else if |letrasColumnas| > 1 {
            columnaFormateada := "Columnas " + letrasColumnas[0] + " a " + letrasColumnas[|letrasColumnas| - 1];
          }
          return Ok(Info(Int(suma.total), infoPrestacion.value.textoPrestacion, columnaFormateada));
        case SinColumnas =>
          return Ok(Info(Empty, infoPrestacion.value.textoPrestacion, ""));
    }

    /** The range loop of `_obtener_valor`: one column per offset, numeric cells added up. */
    method SumarRango(lector: LectorXLSM, nombreHoja: string, fila: int, indiceColInicio: int,
                      offsetInicio: int, offsetFin: int)
      returns (r: Result<Suma, Error>)
      requires lector.Valid()
      modifies lector`libro
      ensures lector.Valid()
      ensures lector.libro == old(lector.libro) || lector.libro == lector.disco
      ensures r == SumaRango(lector.disco, nombreHoja, fila, indiceColInicio, offsetInicio, offsetFin)
    {
      var total := 0;
      var letrasColumnas: seq<string> := [];
      var offset := offsetInicio;
      while offset <= offsetFin
        invariant lector.Valid()
        invariant lector.libro == old(lector.libro) || lector.libro == lector.disco
        invariant offsetInicio <= offset
        invariant offsetInicio <= offsetFin ==> offset <= offsetFin + 1
        invariant offsetFin < offsetInicio ==> offset == offsetInicio
        invariant SumaRango(lector.disco, nombreHoja, fila, indiceColInicio, offsetInicio, offset - 1)
                  == Ok(Suma(total, letrasColumnas))
        decreases offsetFin - offset
      {
        var celda := LeerColumna(lector, nombreHoja, fila, indiceColInicio + offset);
        if celda.Err? {
          SumaRangoCorte(lector.disco, nombreHoja, fila, indiceColInicio, offsetInicio, offset, offsetFin);
          return Err(celda.error);
        }
        var (letraCol, valor) := celda.value;
        SumaRangoSigue(lector.disco, nombreHoja, fila, indiceColInicio, offsetInicio, offset, total, letrasColumnas, valor);
        letrasColumnas := letrasColumnas + [letraCol];
        if valor.Int? {
          total := total + valor.n;
        }
        offset := offset + 1;
      }
      return Ok(Suma(total, letrasColumnas));
    }

    /** One column of `_obtener_valor`: its letter, then its cell. */
    method LeerColumna(lector: LectorXLSM, nombreHoja: string, fila: int, indiceCol: int)
      returns (r: Result<(string, Value), Error>)
      requires lector.Valid()
      modifies lector`libro
      ensures lector.Valid()
      ensures indiceCol < 1 ==> lector.libro == old(lector.libro)
      ensures indiceCol >= 1 ==> lector.libro == lector.disco
      ensures indiceCol < 1 ==> r == Err(InvalidIndexError)
      ensures indiceCol >= 1 ==> r == Ok((Letters(indiceCol), LeerCelda(lector.disco, nombreHoja, Letters(indiceCol), fila)))
    {
      var letraCol :- ColumnaALetraExcel(indiceCol);
      var valor := lector.ObtenerValorCelda(nombreHoja, fila, Some(letraCol), None);
      assert valor == Ok(LeerCelda(lector.disco, nombreHoja, letraCol, fila));
      return Ok((letraCol, valor.value));
    }

    /** `_agregar_error`. */
    method AgregarError(mensaje: string)
      modifies this`errores
      ensures errores == old(errores) + [mensaje]
    {
      errores := errores + [mensaje];
    }
  }
}
