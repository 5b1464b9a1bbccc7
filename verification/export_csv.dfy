/**
 * The CSV export (frontend/components/tasks/ExportButton.tsx): a byte-order mark, an
 * unquoted header line, then one line per task with six quoted cells. Dates are
 * rendered by the two formatting functions passed in (`dd/MM/yyyy` and
 * `dd/MM/yyyy HH:mm`); the file download itself is browser I/O.
 */
module ExportCsv {
  import opened Wrappers
  import opened Types

  const Bom: char := '\U{FEFF}'
  const Header: seq<string> := ["Título", "Descrição", "Status", "Prioridade", "Data de Vencimento", "Criado em"]

  function StatusLabel(s: TaskStatus): string {
    match s
    case Pending => "Pendente"
    case InProgress => "Em Progresso"
    case Completed => "Concluída"
  }

  function PriorityLabel(p: TaskPriority): string {
    match p
    case Low => "Baixa"
    case Medium => "Média"
    case High => "Alta"
  }

  /** The six cells of one task, in header order; a missing description or due date is an empty cell. */
  function Cells(t: Task, formatDate: string -> string, formatDateTime: string -> string): (r: seq<string>)
    ensures |r| == |Header|
    ensures r[0] == t.title && r[2] == StatusLabel(t.status) && r[3] == PriorityLabel(t.priority)
    ensures r[1] == OrElse(t.description, "")
    ensures r[4] == if Truthy(t.dueDate) then formatDate(t.dueDate.value) else ""
    ensures r[5] == formatDateTime(t.createdAt)
  {
    [ t.title,
      OrElse(t.description, ""),
      StatusLabel(t.status),
      PriorityLabel(t.priority),
      if Truthy(t.dueDate) then formatDate(t.dueDate.value) else "",
      formatDateTime(t.createdAt) ]
  }

  function Quote(c: string): string {
    "\"" + c + "\""
  }

  /** `xs.join(sep)` for a one-character separator. */
  function Join(xs: seq<string>, sep: char): string
    decreases |xs|
  {
    if |xs| == 0 then ""
    else if |xs| == 1 then xs[0]
    else xs[0] + [sep] + Join(xs[1..], sep)
  }

  /** `s.split(sep)` for a one-character separator: the inverse of `Join`. */
  function Split(s: string, sep: char): (r: seq<string>)
    ensures |r| >= 1
    decreases |s|
  {
    if |s| == 0 then [""]
    else
      var rest := Split(s[1..], sep);
      if s[0] == sep then [""] + rest else [[s[0]] + rest[0]] + rest[1..]
  }

  function QuoteAll(cells: seq<string>): (r: seq<string>)
    ensures |r| == |cells|
    ensures forall i :: 0 <= i < |cells| ==> r[i] == Quote(cells[i])
  {
    seq(|cells|, i requires 0 <= i < |cells| => Quote(cells[i]))
  }

  /** One data line: every cell wrapped in double quotes, joined by commas. */
  function Line(cells: seq<string>): string {
    Join(QuoteAll(cells), ',')
  }

  function Lines(tasks: seq<Task>, formatDate: string -> string, formatDateTime: string -> string): (r: seq<string>)
    ensures |r| == |tasks|
    ensures forall i :: 0 <= i < |tasks| ==> r[i] == Line(Cells(tasks[i], formatDate, formatDateTime))
  {
    seq(|tasks|, i requires 0 <= i < |tasks| => Line(Cells(tasks[i], formatDate, formatDateTime)))
  }

  /** `exportToCSV`'s blob content. */
  function Csv(tasks: seq<Task>, formatDate: string -> string, formatDateTime: string -> string): (r: string)
    ensures |r| >= 1 && r[0] == Bom
  {
    [Bom] + Join([Join(Header, ',')] + Lines(tasks, formatDate, formatDateTime), '\n')
  }

  // ---- Properties ----

  predicate Avoids(xs: seq<string>, c: char) {
    forall i :: 0 <= i < |xs| ==> c !in xs[i]
  }

  /** Splitting a string with no separator in its first part keeps that part whole. */
  lemma {:induction false} SplitPrefix(x: string, tail: string, sep: char)
    requires sep !in x
    ensures Split(x + tail, sep) == [x + Split(tail, sep)[0]] + Split(tail, sep)[1..]
    decreases |x|
  {
    if |x| > 0 {
      assert (x + tail)[1..] == x[1..] + tail;
      assert sep !in x[1..] by {
        forall i | 0 <= i < |x[1..]| ensures x[1..][i] != sep { assert x[1..][i] == x[i + 1]; }
      }
      SplitPrefix(x[1..], tail, sep);
      assert [x[0]] + (x[1..] + Split(tail, sep)[0]) == x + Split(tail, sep)[0];
    } else {
      var r := Split(tail, sep);
      assert x + tail == tail;
      assert r == [r[0]] + r[1..];
      assert x + r[0] == r[0];
    }
  }

  /** Split undoes Join when no element contains the separator. */
  lemma {:induction false} SplitJoin(xs: seq<string>, sep: char)
    requires |xs| >= 1 && Avoids(xs, sep)
    ensures Split(Join(xs, sep), sep) == xs
    decreases |xs|
  {
    if |xs| == 1 {
      SplitPrefix(xs[0], "", sep);
      assert xs[0] + "" == xs[0];
    } else {
      var y := Join(xs[1..], sep);
      assert Avoids(xs[1..], sep) by {
        forall i | 0 <= i < |xs[1..]| ensures sep !in xs[1..][i] { assert xs[1..][i] == xs[i + 1]; }
      }
      SplitJoin(xs[1..], sep);
      assert xs[0] + [sep] + y == xs[0] + ([sep] + y);
      SplitPrefix(xs[0], [sep] + y, sep);
      assert ([sep] + y)[1..] == y;
      assert Split([sep] + y, sep) == [""] + xs[1..];
      assert xs[0] + "" == xs[0];
      assert xs == [xs[0]] + xs[1..];
    }
  }

  /** Joining strings that avoid a character, with a different separator, avoids it too. */
  lemma {:induction false} JoinAvoids(xs: seq<string>, sep: char, c: char)
    requires Avoids(xs, c) && c != sep
    ensures c !in Join(xs, sep)
    decreases |xs|
  {
    if |xs| > 1 {
      assert Avoids(xs[1..], c) by {
        forall i | 0 <= i < |xs[1..]| ensures c !in xs[1..][i] { assert xs[1..][i] == xs[i + 1]; }
      }
      JoinAvoids(xs[1..], sep, c);
      assert c !in xs[0];
    }
  }

  lemma QuoteAvoids(cells: seq<string>, c: char)
    requires Avoids(cells, c) && c != '"'
    ensures Avoids(QuoteAll(cells), c)
  {
  }

  /**
   * A data line reads back as its quoted cells: when no cell holds a comma, splitting
   * the line at commas gives exactly the six cells, each wrapped in double quotes.
   */
  lemma LineCells(t: Task, formatDate: string -> string, formatDateTime: string -> string)
    requires Avoids(Cells(t, formatDate, formatDateTime), ',')
    ensures var fields := Split(Line(Cells(t, formatDate, formatDateTime)), ',');
      |fields| == 6 && forall i :: 0 <= i < 6 ==> fields[i] == Quote(Cells(t, formatDate, formatDateTime)[i])
  {
    var cells := Cells(t, formatDate, formatDateTime);
    QuoteAvoids(cells, ',');
    SplitJoin(QuoteAll(cells), ',');
  }

  /** A data line holds no line break when none of its cells does. */
  lemma LineAvoids(cells: seq<string>)
    requires Avoids(cells, '\n')
    ensures '\n' !in Line(cells)
  {
    QuoteAvoids(cells, '\n');
    JoinAvoids(QuoteAll(cells), ',', '\n');
  }

  lemma AvoidsAppend(a: seq<string>, b: seq<string>, c: char)
    requires Avoids(a, c) && Avoids(b, c)
    ensures Avoids(a + b, c)
  {
    forall i | 0 <= i < |a + b| ensures c !in (a + b)[i] {
      if i < |a| {
        assert (a + b)[i] == a[i];
      } else {
        assert (a + b)[i] == b[i - |a|];
      }
    }
  }

  lemma LinesAvoid(tasks: seq<Task>, formatDate: string -> string, formatDateTime: string -> string)
    requires forall i :: 0 <= i < |tasks| ==> Avoids(Cells(tasks[i], formatDate, formatDateTime), '\n')
    ensures Avoids([Join(Header, ',')] + Lines(tasks, formatDate, formatDateTime), '\n')
  {
    var body := Lines(tasks, formatDate, formatDateTime);
    forall i | 0 <= i < |body| ensures '\n' !in body[i] {
      LineAvoids(Cells(tasks[i], formatDate, formatDateTime));
    }
    JoinAvoids(Header, ',', '\n');
    assert Avoids([Join(Header, ',')], '\n');
    AvoidsAppend([Join(Header, ',')], body, '\n');
  }

  /**
   * The file is the mark, then the header, then one line per task, in order: when no
   * cell holds a line break, splitting the content after the mark at line breaks gives
   * the header line followed by each task's line.
   */
  lemma CsvLines(tasks: seq<Task>, formatDate: string -> string, formatDateTime: string -> string)
    requires forall i :: 0 <= i < |tasks| ==> Avoids(Cells(tasks[i], formatDate, formatDateTime), '\n')
    ensures Split(Csv(tasks, formatDate, formatDateTime)[1..], '\n')
              == [Join(Header, ',')] + Lines(tasks, formatDate, formatDateTime)
  {
    var all := [Join(Header, ',')] + Lines(tasks, formatDate, formatDateTime);
    LinesAvoid(tasks, formatDate, formatDateTime);
    SplitJoin(all, '\n');
    assert Csv(tasks, formatDate, formatDateTime)[1..] == Join(all, '\n');
  }

  /** A task without description or due date has empty quoted cells in those columns. */
  lemma MissingFieldsAreEmptyCells(t: Task, formatDate: string -> string, formatDateTime: string -> string)
    requires t.description.None? && t.dueDate.None?
    ensures QuoteAll(Cells(t, formatDate, formatDateTime))[1] == "\"\""
    ensures QuoteAll(Cells(t, formatDate, formatDateTime))[4] == "\"\""
  {
  }
}
