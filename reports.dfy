/**
 * The ticket report of docs/web/Relatorios.mobile.tsx: its single-choice filters, the query
 * they build, the CSV export, and the load, which in this screen is a placeholder that always
 * yields no rows.
 */
module Reports {
  import opened Wrappers
  import opened Strings
  import opened Services

  /** `ReportRow`; `dia` is `''` when the row's day is missing. */
  datatype ReportRow = ReportRow(dia: string, status: string, categoria: string, nivel: string, prioridade: string, qtde: int)

  // ----- the filters -----

  /** `toggle`: a chip either clears the selection it is in or becomes the only one selected. */
  function ToggleOne(v: string, lista: seq<string>): (r: seq<string>)
    ensures |r| <= 1
    ensures r == [] <==> v in lista
    ensures v !in lista ==> r == [v]
  {
    if v in lista then [] else [v]
  }

  /** Pressing the selected chip again clears it; pressing another one switches to it. */
  lemma ToggleSwitches(v: string, w: string)
    ensures ToggleOne(v, ToggleOne(v, [])) == []
    ensures v != w ==> ToggleOne(w, ToggleOne(v, [])) == [w]
  {
  }

  /** `query`, built by one `p.set` after another. */
  method BuildReportQuery(from: string, to: string, statusSel: seq<string>, categoriaSel: seq<string>, nivelSel: seq<string>)
    returns (q: Params)
    ensures Lookup(q, "from") == NonEmpty(from)
    ensures Lookup(q, "to") == NonEmpty(to)
    ensures Lookup(q, "status") == FirstSelected(statusSel)
    ensures Lookup(q, "categoria") == FirstSelected(categoriaSel)
    ensures Lookup(q, "nivel") == FirstSelected(nivelSel)
    ensures |q| <= 5
  {
    q := [];
    q := SetIfPresent(q, "from", NonEmpty(from));
    q := SetIfPresent(q, "to", NonEmpty(to));
    q := SetSelections(q, statusSel, categoriaSel, nivelSel);
  }

  // ----- the CSV export -----

  const CSV_HEADERS: seq<string> := ["Dia", "Status", "Categoria", "Nivel", "Prioridade", "Qtde"]

  /** The header record: the names joined by `';'`, which are not escaped. */
  function HeaderLine(): string {
    Join(CSV_HEADERS, ";")
  }

  /** A row's six fields, before escaping; the day is cut to its first 10 characters. */
  function RowFields(r: ReportRow): (f: seq<string>)
    ensures |f| == 6
  {
    [Take(r.dia, 10), r.status, r.categoria, r.nivel, r.prioridade, IntToString(r.qtde)]
  }

  /** `String(x).replaceAll(';', ',')`. */
  function Escaped(x: string): (r: string)
    ensures ';' !in r && |r| == |x|
  {
    ReplaceChar(x, ';', ',')
  }

  function EscapeAll(fields: seq<string>): (r: seq<string>)
    ensures |r| == |fields| && forall i :: 0 <= i < |fields| ==> r[i] == Escaped(fields[i])
  {
    seq(|fields|, i requires 0 <= i < |fields| => Escaped(fields[i]))
  }

  /** One data record: the escaped fields joined by `';'`. */
  function Record(r: ReportRow): string {
    Join(EscapeAll(RowFields(r)), ";")
  }

  function Records(items: seq<ReportRow>): (r: seq<string>)
    ensures |r| == |items| && forall i :: 0 <= i < |items| ==> r[i] == Record(items[i])
  {
    seq(|items|, i requires 0 <= i < |items| => Record(items[i]))
  }

  /** `gerarCSV`: the header, then one record per item, joined by `'\n'`. */
  function GerarCSV(items: seq<ReportRow>): string {
    Join([HeaderLine()] + Records(items), "\n")
  }

  lemma HeaderHasNoNewline()
    ensures '\n' !in HeaderLine()
  {
    JoinWithout(CSV_HEADERS, ";", '\n');
  }

  /** The first line of the export is the header, whatever the rows hold. */
  lemma CsvStartsWithHeader(items: seq<ReportRow>)
    ensures Split(GerarCSV(items), '\n')[0] == HeaderLine()
  {
    HeaderHasNoNewline();
    var parts := [HeaderLine()] + Records(items);
    if |items| == 0 {
      SplitWithoutSeparator(HeaderLine(), '\n');
    } else {
      assert parts[1..] == Records(items);
      SplitAtFirstSeparator(HeaderLine(), '\n', Join(Records(items), "\n"));
    }
  }

  /** Each record splits on `';'` into exactly its six escaped fields. */
  lemma RecordHasSixFields(r: ReportRow)
    ensures Split(Record(r), ';') == EscapeAll(RowFields(r))
    ensures |Split(Record(r), ';')| == 6
    ensures Split(Record(r), ';')[0] == Escaped(Take(r.dia, 10)) && |Split(Record(r), ';')[0]| <= 10
  {
    SplitJoin(EscapeAll(RowFields(r)), ';');
  }

  /** No field of the row holds a line break. */
  predicate SingleLine(r: ReportRow) {
    '\n' !in r.dia && '\n' !in r.status && '\n' !in r.categoria && '\n' !in r.nivel && '\n' !in r.prioridade
  }

  lemma RecordIsOneLine(r: ReportRow)
    requires SingleLine(r)
    ensures '\n' !in Record(r)
  {
    var f := RowFields(r);
    forall k | 0 <= k < |f[0]|
      ensures f[0][k] != '\n'
    {
      assert f[0][k] == r.dia[k];
    }
    assert '\n' !in f[5];
    forall i | 0 <= i < 6
      ensures '\n' !in EscapeAll(f)[i]
    {
      ReplaceCharKeepsAbsent(f[i], ';', ',', '\n');
    }
    JoinWithout(EscapeAll(f), ";", '\n');
  }

  /**
   * When no field holds a line break, the export's lines are the header and then exactly one
   * record per item, in the items' order.
   */
  lemma CsvOneRecordPerItem(items: seq<ReportRow>)
    requires forall i :: 0 <= i < |items| ==> SingleLine(items[i])
    ensures Split(GerarCSV(items), '\n') == [HeaderLine()] + Records(items)
    ensures |Split(GerarCSV(items), '\n')| == |items| + 1
  {
    HeaderHasNoNewline();
    var parts := [HeaderLine()] + Records(items);
    forall i | 0 <= i < |parts|
      ensures '\n' !in parts[i]
    {
      if i > 0 {
        RecordIsOneLine(items[i - 1]);
      }
    }
    SplitJoin(parts, '\n');
  }

  // ----- the load -----

  /** The screen's load state. */
  datatype ReportState = ReportState(items: seq<ReportRow>, error: Option<string>, loading: bool)

  const NO_PERMISSION: string := "Sem permissão para Relatórios."
  const REPORT_LOAD_FAILED: string := "Falha ao carregar relatórios"

  /** The message the `catch` of `carregar` shows for an error whose message is `msg`. */
  function ReportErrorText(msg: string): (r: string)
    ensures Contains(msg, "403") ==> r == NO_PERMISSION
    ensures !Contains(msg, "403") && msg != "" ==> r == msg
    ensures msg == "" ==> r == REPORT_LOAD_FAILED
  {
    if Contains(msg, "403") then NO_PERMISSION
    else if msg != "" then msg
    else REPORT_LOAD_FAILED
  }

  /** `carregar`: the placeholder's data is always empty, so the load clears the rows and any error. */
  function Carregar(st: ReportState): (t: ReportState)
    ensures t.items == [] && t.error.None? && !t.loading
  {
    st.(loading := true, error := None).(items := []).(loading := false)
  }

  /** After a load the export holds only the header. */
  lemma LoadedExportIsHeaderOnly(st: ReportState)
    ensures GerarCSV(Carregar(st).items) == HeaderLine()
  {
    assert [HeaderLine()] + Records([]) == [HeaderLine()];
  }
}
