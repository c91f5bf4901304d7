/**
 * The row reading shared by the tenants and dashboard route handlers: the
 * file text is split on '\n', the header line is dropped and rows that are
 * blank after trimming are removed.
 */
module CsvRows {
  import opened Text
  import opened Sequences

  /** Text with no line break in it. */
  predicate OneLine(s: string) {
    '\n' !in s
  }

  /** `r.trim() !== ''` */
  predicate NonBlank(row: string) {
    Trim(row) != []
  }

  /** `text.split('\n').slice(1).filter(r => r.trim() !== '')` */
  function DataRows(text: string): seq<string>
  {
    Filter(SplitOn(text, '\n')[1..], NonBlank)
  }

  /**
   * Reading a file made of a header line and further lines drops the header
   * and the blank lines and keeps the others in order.
   */
  lemma DataRowsOfLines(header: string, lines: seq<string>)
    requires OneLine(header)
    requires forall i :: 0 <= i < |lines| ==> OneLine(lines[i])
    ensures DataRows(Join([header] + lines, '\n')) == Filter(lines, NonBlank)
  {
    var all := [header] + lines;
    forall k | 0 <= k < |all| ensures '\n' !in all[k] {
      if k > 0 {
        assert all[k] == lines[k - 1] && OneLine(lines[k - 1]);
      }
    }
    SplitJoin(all, '\n');
    var text := Join(all, '\n');
    assert SplitOn(text, '\n')[1..] == lines;
    assert DataRows(text) == Filter(lines, NonBlank);
  }

  /** A file of a header line and non-blank rows reads back as exactly those rows. */
  lemma DataRowsOfFile(header: string, rows: seq<string>)
    requires OneLine(header)
    requires forall i :: 0 <= i < |rows| ==> NonBlank(rows[i]) && OneLine(rows[i])
    ensures DataRows(Join([header] + rows, '\n')) == rows
  {
    DataRowsOfLines(header, rows);
    FilterAll(rows, NonBlank);
  }

  /** The same holds when the file ends with a newline. */
  lemma DataRowsOfFileWithNewline(header: string, rows: seq<string>)
    requires OneLine(header)
    requires forall i :: 0 <= i < |rows| ==> NonBlank(rows[i]) && OneLine(rows[i])
    ensures DataRows(Join([header] + (rows + [""]), '\n')) == rows
  {
    EmptyLastLine(rows);
    DataRowsOfLines(header, rows + [""]);
    FilterAll(rows, NonBlank);
    FilterAppend(rows, [""], NonBlank);
    EmptyLineDropped();
  }

  lemma EmptyLastLine(rows: seq<string>)
    requires forall i :: 0 <= i < |rows| ==> OneLine(rows[i])
    ensures forall i :: 0 <= i < |rows + [""]| ==> OneLine((rows + [""])[i])
  {
  }

  lemma EmptyLineDropped()
    ensures Filter([""], NonBlank) == []
  {
    assert [""][..0] == [];
    assert Trim("") == [];
  }
}
