/** The append stream of a collector (cgi-bin/src/db/appender.js).

    The server list, the client library and the table are given as replies. An append stores all
    its rows or none. Column names are compared without regard to the case of ASCII letters. */
module Appender {
  import opened Options
  import opened Cycle

  datatype Column = Column(name: string, primary: bool, basetime: bool)

  datatype Mapping = Mapping(primary: string, basetime: string, value: string, stringValue: Option<string>)

  /** What the surroundings answer when a stream is opened; `columns` is None if the query fails. */
  datatype Reply = Reply(server: bool, client: bool, connection: bool, columns: Option<seq<Column>>, stream: bool)

  function Upper(s: string): string {
    if s == "" then ""
    else [if 'a' <= s[0] <= 'z' then (s[0] as int - 32) as char else s[0]] + Upper(s[1..])
  }

  function ColumnByName(columns: seq<Column>, name: string): Option<string> {
    if columns == [] then None
    else if Upper(columns[0].name) == Upper(name) then Some(columns[0].name)
    else ColumnByName(columns[1..], name)
  }

  function PrimaryOf(columns: seq<Column>): string {
    if columns == [] then "" else if columns[0].primary then columns[0].name else PrimaryOf(columns[1..])
  }

  function BasetimeOf(columns: seq<Column>): string {
    if columns == [] then "" else if columns[0].basetime then columns[0].name else BasetimeOf(columns[1..])
  }

  /** The columns that rows are written to, if the table has those that it must have. */
  function MappingOf(columns: seq<Column>, d: Database): Option<Mapping> {
    var value := ColumnByName(columns, d.valueColumn);
    var stringValue := ColumnByName(columns, d.stringValueColumn);
    if PrimaryOf(columns) == "" || BasetimeOf(columns) == "" || value.None? || value.value == "" then None
    else Some(Mapping(PrimaryOf(columns), BasetimeOf(columns), value.value,
                      if stringValue.Some? && stringValue.value != "" then stringValue else None))
  }

  // ---------------------------------------------------------------- what the mapping is

  /** Each letter by itself. */
  lemma {:induction false} UpperAt(s: string)
    ensures |Upper(s)| == |s|
    ensures forall i :: 0 <= i < |s| ==>
              Upper(s)[i] == if 'a' <= s[i] <= 'z' then (s[i] as int - 'a' as int + 'A' as int) as char else s[i]
  {
    if s == "" {
    } else {
      UpperAt(s[1..]);
    }
  }

  /** Column i is the first one of its kind. */
  predicate FirstPrimary(columns: seq<Column>, i: int) {
    0 <= i < |columns| && columns[i].primary && forall j :: 0 <= j < i ==> !columns[j].primary
  }

  predicate FirstBasetime(columns: seq<Column>, i: int) {
    0 <= i < |columns| && columns[i].basetime && forall j :: 0 <= j < i ==> !columns[j].basetime
  }

  predicate FirstNamed(columns: seq<Column>, name: string, i: int) {
    0 <= i < |columns| && Upper(columns[i].name) == Upper(name)
    && forall j :: 0 <= j < i ==> Upper(columns[j].name) != Upper(name)
  }

  lemma {:induction false} PrimaryIs(columns: seq<Column>)
    ensures PrimaryOf(columns) != "" ==> exists i :: FirstPrimary(columns, i) && columns[i].name == PrimaryOf(columns)
    ensures forall i :: FirstPrimary(columns, i) ==> columns[i].name == PrimaryOf(columns)
  {
    if columns == [] {
    } else if columns[0].primary {
      assert FirstPrimary(columns, 0);
    } else {
      PrimaryIs(columns[1..]);
      assert forall i :: FirstPrimary(columns, i) ==> FirstPrimary(columns[1..], i - 1);
      if i :| FirstPrimary(columns[1..], i) { assert FirstPrimary(columns, i + 1); }
    }
  }

  lemma {:induction false} BasetimeIs(columns: seq<Column>)
    ensures BasetimeOf(columns) != "" ==>
              exists i :: FirstBasetime(columns, i) && columns[i].name == BasetimeOf(columns)
    ensures forall i :: FirstBasetime(columns, i) ==> columns[i].name == BasetimeOf(columns)
  {
    if columns == [] {
    } else if columns[0].basetime {
      assert FirstBasetime(columns, 0);
    } else {
      BasetimeIs(columns[1..]);
      assert forall i :: FirstBasetime(columns, i) ==> FirstBasetime(columns[1..], i - 1);
      if i :| FirstBasetime(columns[1..], i) { assert FirstBasetime(columns, i + 1); }
    }
  }

  lemma {:induction false} NamedIs(columns: seq<Column>, name: string)
    ensures ColumnByName(columns, name).Some? ==>
              exists i :: FirstNamed(columns, name, i) && columns[i].name == ColumnByName(columns, name).value
    ensures forall i :: FirstNamed(columns, name, i) ==> ColumnByName(columns, name) == Some(columns[i].name)
  {
    hide Upper;
    if columns == [] {
    } else if Upper(columns[0].name) == Upper(name) {
      assert FirstNamed(columns, name, 0);
    } else {
      NamedIs(columns[1..], name);
      assert forall i :: FirstNamed(columns, name, i) ==> FirstNamed(columns[1..], name, i - 1);
      if i :| FirstNamed(columns[1..], name, i) { assert FirstNamed(columns, name, i + 1); }
    }
  }

  /** Rows can be mapped exactly if the first primary key, the first base time and the first column with
      the name of the value column are there and have names; they go to these columns, and strings to
      the first column with the name of the string column, if there is one. */
  lemma MappingIs(columns: seq<Column>, d: Database, p: int, b: int, v: int)
    requires p == -1 || FirstPrimary(columns, p)
    requires b == -1 || FirstBasetime(columns, b)
    requires v == -1 || FirstNamed(columns, d.valueColumn, v)
    requires p == -1 ==> forall c <- columns :: !c.primary
    requires b == -1 ==> forall c <- columns :: !c.basetime
    requires v == -1 ==> forall c <- columns :: Upper(c.name) != Upper(d.valueColumn)
    ensures MappingOf(columns, d).Some?
            <==> p >= 0 && b >= 0 && v >= 0
                 && columns[p].name != "" && columns[b].name != "" && columns[v].name != ""
    ensures MappingOf(columns, d).Some? ==>
              var m := MappingOf(columns, d).value;
              && m.primary == columns[p].name && m.basetime == columns[b].name && m.value == columns[v].name
              && (forall s :: FirstNamed(columns, d.stringValueColumn, s) ==>
                    m.stringValue == if columns[s].name != "" then Some(columns[s].name) else None)
              && ((forall c <- columns :: Upper(c.name) != Upper(d.stringValueColumn)) ==> m.stringValue.None?)
  {
    hide Upper;
    PrimaryIs(columns);
    BasetimeIs(columns);
    NamedIs(columns, d.valueColumn);
    NamedIs(columns, d.stringValueColumn);
  }

  /** The mapping of the stream that a reply lets open. */
  function Opens(d: Database, r: Reply): Option<Mapping> {
    if r.server && r.client && r.connection && r.columns.Some? && r.stream then MappingOf(r.columns.value, d) else None
  }

  class Stream {
    var client: bool
    var connection: bool
    var appender: bool
    var columns: seq<Column>
    var mapping: Option<Mapping>
    /** The rows in the table. */
    var written: seq<Row>

    /** All of the stream is there, or nothing is. */
    predicate Valid()
      reads this
    {
      client == connection == appender == mapping.Some? && (!appender ==> columns == [])
    }

    constructor ()
      ensures Valid() && mapping.None? && written == []
    {
      client, connection, appender, columns, mapping, written := false, false, false, [], None, [];
    }

    method Close()
      modifies this
      ensures Valid() && mapping.None? && written == old(written)
    {
      appender, connection, client := false, false, false;
      columns := [];
      mapping := None;
    }

    /** The stream is open afterwards exactly when every step succeeded and the mapping is
        complete. */
    method Open(d: Database, r: Reply) returns (ok: bool)
      modifies this
      ensures Valid() && mapping == Opens(d, r) && ok == mapping.Some? && written == old(written)
    {
      Close();
      if !r.server { return false; }
      if !r.client { Close(); return false; }
      client := true;
      if !r.connection { Close(); return false; }
      connection := true;
      if r.columns.None? { Close(); return false; }
      columns := r.columns.value;
      var found := MappingOf(columns, d);
      if found.None? { Close(); return false; }
      mapping := found;
      if !r.stream { Close(); return false; }
      appender := true;
      return true;
    }

    /** The number of rows written, or None where it throws: the stream is not open, or it has
        rows to write and does not accept them. A failure leaves the stream as it is. */
    method Append(rows: seq<Row>, accepted: bool) returns (count: Option<nat>)
      requires Valid()
      modifies this`written
      ensures Valid()
      ensures count.Some? <==> mapping.Some? && (accepted || Writable(mapping.value.stringValue.Some?, rows) == [])
      ensures count.Some? ==> written == old(written) + Writable(mapping.value.stringValue.Some?, rows)
                              && count.value == |Writable(mapping.value.stringValue.Some?, rows)|
      ensures count.None? ==> written == old(written)
    {
      if !appender || mapping.None? { return None; }
      var writable := if mapping.value.stringValue.Some? then rows else Writable(false, rows);
      if writable != [] {
        if !accepted { return None; }
        written := written + writable;
      }
      return Some(|writable|);
    }
  }
}
