/** The per-id load (`load_data`) and the driver loop (`main`): build the
    parameterised INSERT, bind the flattened character's fields as its
    parameters, insert-if-absent keyed by `id`, and run ids 1 to 99 in order,
    letting any one id fail without stopping the run. */
module Pipeline {
  import opened Wrappers
  import opened Strings
  import opened Enrichment

  /** The table's columns, in the order the INSERT names them. */
  const Fields: seq<string> := [
    "id", "name", "birth_year", "eye_color", "gender", "hair_color", "height",
    "homeworld", "mass", "skin_color", "films", "species", "starships", "vehicles"]

  /** `f'${i+1}' for i in range(n)`. */
  function Placeholders(n: nat): seq<string> {
    seq(n, i requires 0 <= i < n => "$" + NatToString(i + 1))
  }

  /** Every placeholder is `$` followed by a numeral, and the numerals are
      1, 2, ..., n in order. */
  lemma PlaceholdersNumbered(n: nat)
    ensures |Placeholders(n)| == n
    ensures forall i :: 0 <= i < n ==>
      var p := Placeholders(n)[i];
      |p| > 1 && p[0] == '$' && IsDigits(p[1..]) && ParseNat(p[1..]) == i + 1
  {
    forall i | 0 <= i < n
      ensures var p := Placeholders(n)[i];
              |p| > 1 && p[0] == '$' && IsDigits(p[1..]) && ParseNat(p[1..]) == i + 1
    {
      var p := Placeholders(n)[i];
      assert p[1..] == NatToString(i + 1);
      ParseFormat(i + 1);
    }
  }

  /** `','.join(fields)`. */
  const ColumnList: string := Join(Fields, ",")

  /** `','.join(f'${i+1}' for i in range(len(fields)))`. */
  const PlaceholderList: string := Join(Placeholders(|Fields|), ",")

  /** The column list splits back on `,` into exactly the 14 fields, in order. */
  lemma ColumnListFields()
    ensures |Fields| == 14 && Split(ColumnList, ',') == Fields
  {
    assert forall i :: 0 <= i < |Fields| ==> ',' !in Fields[i];
    SplitJoin(Fields, ',');
  }

  /** The placeholder list splits back on `,` into one placeholder per
      field, numbered `$1` to `$14`. */
  lemma PlaceholderListNumbered()
    ensures var ps := Split(PlaceholderList, ',');
      && |ps| == |Fields|
      && forall i :: 0 <= i < |ps| ==>
           |ps[i]| > 1 && ps[i][0] == '$' && IsDigits(ps[i][1..]) && ParseNat(ps[i][1..]) == i + 1
  {
    var n := |Fields|;
    PlaceholdersNumbered(n);
    forall i | 0 <= i < n ensures ',' !in Placeholders(n)[i] {
      var p := Placeholders(n)[i];
      var digits := NatToString(i + 1);
      assert p == "$" + digits;
      assert forall j :: 1 <= j < |p| ==> p[j] == digits[j - 1];
    }
    SplitJoin(Placeholders(n), ',');
  }

  /** `[character_data[field] for field in fields]`: a `KeyError` for the
      first missing field. */
  function Params(character: Object, fields: seq<string>): (r: Result<seq<Value>, Error>)
    ensures r.Success? <==> forall i :: 0 <= i < |fields| ==> fields[i] in character
    ensures r.Success? ==>
      |r.value| == |fields| && forall i :: 0 <= i < |fields| ==> r.value[i] == character[fields[i]]
    ensures r.Failure? ==>
      exists i :: 0 <= i < |fields| && r.error == KeyError(fields[i]) && fields[i] !in character &&
        forall j :: 0 <= j < i ==> fields[j] in character
  {
    if |fields| == 0 then Success([])
    else if fields[0] !in character then Failure(KeyError(fields[0]))
    else
      var rest :- Params(character, fields[1..]);
      Success([character[fields[0]]] + rest)
  }

  /** A row of the `characters` table: the integer key and the 13 text
      columns, `None` standing for SQL NULL. */
  datatype Row = Row(id: int, cells: seq<Option<string>>)

  /** The text a column stores for a parameter, when the driver can encode it. */
  function TextCell(v: Value): Option<string> {
    if v.Str? then Some(v.s) else None
  }

  /** The driver's encoding of parameters for text columns: a string or
      `None`, anything else is a `DataError` naming the column. */
  function TextCells(vs: seq<Value>, columns: seq<string>): (r: Result<seq<Option<string>>, Error>)
    requires |vs| == |columns|
    ensures r.Success? <==> forall i :: 0 <= i < |vs| ==> vs[i].Str? || vs[i].Null?
    ensures r.Success? ==> |r.value| == |vs| && forall i :: 0 <= i < |vs| ==> r.value[i] == TextCell(vs[i])
    ensures r.Failure? ==>
      exists i :: 0 <= i < |vs| && r.error == DataError(columns[i]) && !(vs[i].Str? || vs[i].Null?) &&
        forall j :: 0 <= j < i ==> vs[j].Str? || vs[j].Null?
  {
    if |vs| == 0 then Success([])
    else if !(vs[0].Str? || vs[0].Null?) then Failure(DataError(columns[0]))
    else
      var rest :- TextCells(vs[1..], columns[1..]);
      Success([TextCell(vs[0])] + rest)
  }

  /** Whether the driver can encode `v` as the `i`-th parameter: an integer
      for `$1` (the `id` column), a string or `None` for the text columns. */
  predicate Encodable(i: nat, v: Value) {
    if i == 0 then v.Number? else v.Str? || v.Null?
  }

  /** The parameters of the INSERT for one flattened character: a `KeyError`
      for the first missing field, else a `DataError` for the first
      parameter, in `$1`..`$14` order, the driver cannot encode. */
  function Bind(character: Object): (r: Result<Row, Error>)
    ensures r.Success? <==>
      (forall i :: 0 <= i < |Fields| ==> Fields[i] in character) &&
      (forall i :: 0 <= i < |Fields| ==> Encodable(i, character[Fields[i]]))
    ensures r.Success? ==> "id" in character && character["id"] == Number(r.value.id)
    ensures r.Success? ==> |r.value.cells| == |Fields| - 1 && forall i :: 1 <= i < |Fields| ==>
      (character[Fields[i]].Str? || character[Fields[i]].Null?) &&
      r.value.cells[i - 1] == TextCell(character[Fields[i]])
    ensures r.Failure? ==> r.error.KeyError? || r.error.DataError?
    ensures r.Failure? && r.error.KeyError? ==>
      exists i :: 0 <= i < |Fields| && r.error == KeyError(Fields[i]) && Fields[i] !in character &&
        forall j :: 0 <= j < i ==> Fields[j] in character
    ensures r.Failure? && r.error.DataError? ==>
      (forall i :: 0 <= i < |Fields| ==> Fields[i] in character) &&
      exists i :: 0 <= i < |Fields| && r.error == DataError(Fields[i]) &&
        !Encodable(i, character[Fields[i]]) &&
        forall j :: 0 <= j < i ==> Encodable(j, character[Fields[j]])
  {
    var params :- Params(character, Fields);
    var id :- if params[0].Number? then Success(params[0].n) else Failure(DataError("id"));
    var cells :- TextCells(params[1..], Fields[1..]);
    Success(Row(id, cells))
  }

  /** `load_data(session, id)` up to the INSERT: the row it would insert,
      or the exception that ends this id. The list of field values is taken
      as the statement's argument vector, one argument per placeholder. */
  function Load(fetch: Fetch, id: nat): Result<Row, Error> {
    var character :- Extract(fetch, id);
    Bind(character)
  }

  /** A loaded row supplies exactly one argument per `$n` placeholder of
      the statement: the key for `$1` and one cell for each later one. */
  lemma LoadMatchesPlaceholders(fetch: Fetch, id: nat)
    ensures Load(fetch, id).Success? ==>
      1 + |Load(fetch, id).value.cells| == |Split(PlaceholderList, ',')|
  {
    PlaceholderListNumbered();
  }

  /** Lines 62-73 as written: the list of field values is one positional
      argument, so `execute(query, *args)` receives a single argument for a
      statement with one placeholder per field. The driver checks the
      argument count before it encodes any argument. */
  function LoadAsWritten(fetch: Fetch, id: nat): Result<Row, Error> {
    var character :- Extract(fetch, id);
    var params :- Params(character, Fields);
    var args := [params];
    var expected := |Placeholders(|Fields|)|;
    if |args| == expected then Bind(character) else Failure(InterfaceError(expected, |args|))
  }

  /** As written no id is ever stored: every id fails, and each one that
      would load fails on the argument count, 14 expected and 1 passed. */
  lemma LoadAsWrittenFails(fetch: Fetch, id: nat)
    ensures LoadAsWritten(fetch, id).Failure?
    ensures Load(fetch, id).Success? ==> LoadAsWritten(fetch, id) == Failure(InterfaceError(14, 1))
  {
  }

  function LoadAsWrittenEach(fetch: Fetch): Loader {
    (id: nat) => LoadAsWritten(fetch, id)
  }

  /** Every row the pipeline inserts has the films column set and the
      species, starships and vehicles columns NULL. */
  lemma LoadedRowShape(fetch: Fetch, id: nat)
    requires Load(fetch, id).Success?
    ensures var cells := Load(fetch, id).value.cells;
      cells[9].Some? && cells[10] == None && cells[11] == None && cells[12] == None
  {
    var character := Extract(fetch, id).value;
    ExtractCollapses(fetch, id);
    assert Fields[10] == "films" && Fields[11] == "species";
    assert Fields[12] == "starships" && Fields[13] == "vehicles";
  }

  /** `INSERT ... ON CONFLICT (id) DO NOTHING` on the table's rows, keyed by id. */
  function Inserted(rows: map<int, Row>, row: Row): (r: map<int, Row>)
    ensures r.Keys == rows.Keys + {row.id}
    ensures forall k :: k in rows ==> r[k] == rows[k]
    ensures row.id !in rows ==> r[row.id] == row
  {
    if row.id in rows then rows else rows[row.id := row]
  }

  /** The `characters` table. */
  class Store {
    var rows: map<int, Row>

    /** Executes the INSERT with `row` as its parameters; reports whether a
        row was added. */
    method Insert(row: Row) returns (inserted: bool)
      modifies this
      ensures inserted <==> row.id !in old(rows)
      ensures rows == Inserted(old(rows), row)
    {
      inserted := row.id !in rows;
      if inserted {
        rows := rows[row.id := row];
      }
    }
  }

  /** `load_data(session, id)`: a failing id leaves the table unchanged. */
  method LoadData(fetch: Fetch, store: Store, id: nat) returns (r: Result<Row, Error>)
    modifies store
    ensures r == Load(fetch, id)
    ensures store.rows == if r.Success? then Inserted(old(store.rows), r.value) else old(store.rows)
  {
    var character :- ExtractData(fetch, id);
    var row :- Bind(character);
    var _ := store.Insert(row);
    return Success(row);
  }

  /** The ids `main` processes: `range(1, 100)`. */
  const FirstId: nat := 1
  const EndId: nat := 100

  /** The outcome of `load_data` for each id, as the driver loop sees it. */
  type Loader = nat -> Result<Row, Error>

  function LoadEach(fetch: Fetch): Loader {
    (id: nat) => Load(fetch, id)
  }

  /** The table after processing ids `lo` to `hi - 1` in ascending order. */
  function StoreAfter(load: Loader, rows: map<int, Row>, lo: nat, hi: nat): map<int, Row>
    decreases hi
  {
    if hi <= lo then rows
    else
      var before := StoreAfter(load, rows, lo, hi - 1);
      match load(hi - 1)
      case Success(row) => Inserted(before, row)
      case Failure(_) => before
  }

  /** The `(id, exception)` pairs reported while processing `lo` to `hi - 1`. */
  function ErrorLog(load: Loader, lo: nat, hi: nat): seq<(nat, Error)>
    decreases hi
  {
    if hi <= lo then []
    else
      var before := ErrorLog(load, lo, hi - 1);
      match load(hi - 1)
      case Success(_) => before
      case Failure(e) => before + [(hi - 1, e)]
  }

  /** `main` after `create_table`: every id in order, each failure reported
      (the `print`, here returned) and the loop carried on. */
  method Run(fetch: Fetch, store: Store) returns (log: seq<(nat, Error)>)
    modifies store
    ensures store.rows == StoreAfter(LoadEach(fetch), old(store.rows), FirstId, EndId)
    ensures log == ErrorLog(LoadEach(fetch), FirstId, EndId)
  {
    log := [];
    for id := FirstId to EndId
      invariant store.rows == StoreAfter(LoadEach(fetch), old(store.rows), FirstId, id)
      invariant log == ErrorLog(LoadEach(fetch), FirstId, id)
    {
      var r := LoadData(fetch, store, id);
      if r.Failure? {
        log := log + [(id, r.error)];
      }
    }
  }

  /** First write wins: a row already in the table is never replaced. */
  lemma {:induction false} StoreAfterKeeps(load: Loader, rows: map<int, Row>, lo: nat, hi: nat)
    ensures rows.Keys <= StoreAfter(load, rows, lo, hi).Keys
    ensures forall k :: k in rows ==> StoreAfter(load, rows, lo, hi)[k] == rows[k]
    decreases hi
  {
    if hi > lo {
      StoreAfterKeeps(load, rows, lo, hi - 1);
    }
  }

  /** The keys after a run are the keys before it and the keys of the rows
      of the ids that did not fail; a failing id adds nothing. */
  lemma {:induction false} StoreAfterKeys(load: Loader, rows: map<int, Row>, lo: nat, hi: nat, k: int)
    ensures k in StoreAfter(load, rows, lo, hi) <==>
      k in rows || exists y :: lo <= y < hi && load(y).Success? && load(y).value.id == k
    decreases hi
  {
    if hi > lo {
      StoreAfterKeys(load, rows, lo, hi - 1, k);
      var last := load(hi - 1);
      if exists y :: lo <= y < hi && load(y).Success? && load(y).value.id == k {
        var y :| lo <= y < hi && load(y).Success? && load(y).value.id == k;
        if y < hi - 1 {
          assert k in StoreAfter(load, rows, lo, hi - 1);
        }
      }
      if last.Success? && last.value.id == k {
        assert lo <= hi - 1 < hi;
      }
    }
  }

  /** A run over a table that already holds a row for every key the run
      would insert changes nothing. */
  lemma {:induction false} StoreAfterStable(load: Loader, rows: map<int, Row>, lo: nat, hi: nat)
    requires forall y :: lo <= y < hi && load(y).Success? ==> load(y).value.id in rows
    ensures StoreAfter(load, rows, lo, hi) == rows
    decreases hi
  {
    if hi > lo {
      StoreAfterStable(load, rows, lo, hi - 1);
    }
  }

  /** Running the same ids again, with the same fetch results, leaves the
      table as the first run left it. */
  lemma StoreAfterIdempotent(load: Loader, rows: map<int, Row>, lo: nat, hi: nat)
    ensures var once := StoreAfter(load, rows, lo, hi);
            StoreAfter(load, once, lo, hi) == once
  {
    var once := StoreAfter(load, rows, lo, hi);
    forall y | lo <= y < hi && load(y).Success? ensures load(y).value.id in once {
      StoreAfterKeys(load, rows, lo, hi, load(y).value.id);
    }
    StoreAfterStable(load, once, lo, hi);
  }

  /** Failure isolation: an id whose row loads is persisted whatever happens
      to the other ids, unless its key was already taken, before the run or
      by an earlier id. */
  lemma {:induction false} StoreAfterPersists(load: Loader, rows: map<int, Row>, lo: nat, hi: nat, x: nat)
    requires lo <= x < hi && load(x).Success?
    requires load(x).value.id !in rows
    requires forall y :: lo <= y < x && load(y).Success? ==>
      load(y).value.id != load(x).value.id
    ensures var after := StoreAfter(load, rows, lo, hi);
      load(x).value.id in after && after[load(x).value.id] == load(x).value
    decreases hi
  {
    var row := load(x).value;
    if hi - 1 == x {
      StoreAfterKeys(load, rows, lo, x, row.id);
    } else {
      StoreAfterPersists(load, rows, lo, hi - 1, x);
    }
  }

  /** The log holds exactly the failing ids of the range with their
      exceptions. */
  lemma {:induction false} ErrorLogExact(load: Loader, lo: nat, hi: nat, x: nat, e: Error)
    ensures (x, e) in ErrorLog(load, lo, hi) <==> lo <= x < hi && load(x) == Failure(e)
    decreases hi
  {
    if hi > lo {
      ErrorLogExact(load, lo, hi - 1, x, e);
    }
  }

  /** The log lists ids in strictly ascending order, all within the range. */
  lemma {:induction false} ErrorLogAscending(load: Loader, lo: nat, hi: nat)
    ensures forall i :: 0 <= i < |ErrorLog(load, lo, hi)| ==> lo <= ErrorLog(load, lo, hi)[i].0 < hi
    ensures forall i, j :: 0 <= i < j < |ErrorLog(load, lo, hi)| ==>
      ErrorLog(load, lo, hi)[i].0 < ErrorLog(load, lo, hi)[j].0
    decreases hi
  {
    if hi > lo {
      ErrorLogAscending(load, lo, hi - 1);
      var before := ErrorLog(load, lo, hi - 1);
      var log := ErrorLog(load, lo, hi);
      if load(hi - 1).Failure? {
        var n := |before|;
        assert forall i :: 0 <= i < n ==> lo <= before[i].0 < hi - 1;
        assert log == before + [(hi - 1, load(hi - 1).error)];
        assert forall i :: 0 <= i < n ==> log[i] == before[i];
        assert log[n].0 == hi - 1;
        forall i | 0 <= i < |log| ensures lo <= log[i].0 < hi {
        }
        forall i, j | 0 <= i < j < |log| ensures log[i].0 < log[j].0 {
          if j < n {
            assert log[i].0 == before[i].0 && log[j].0 == before[j].0;
          } else {
            assert log[i].0 == before[i].0 < hi - 1;
          }
        }
      }
    }
  }

  /** The loop over the code as written leaves the table as it was and
      reports every id of the range. */
  lemma RunAsWrittenStoresNothing(fetch: Fetch, rows: map<int, Row>, lo: nat, hi: nat)
    ensures StoreAfter(LoadAsWrittenEach(fetch), rows, lo, hi) == rows
    ensures forall x :: lo <= x < hi ==>
      (x, LoadAsWritten(fetch, x).error) in ErrorLog(LoadAsWrittenEach(fetch), lo, hi)
  {
    var load := LoadAsWrittenEach(fetch);
    forall y | lo <= y < hi ensures load(y).Failure? {
      LoadAsWrittenFails(fetch, y);
    }
    StoreAfterStable(load, rows, lo, hi);
    forall x | lo <= x < hi
      ensures (x, LoadAsWritten(fetch, x).error) in ErrorLog(load, lo, hi)
    {
      ErrorLogExact(load, lo, hi, x, load(x).error);
    }
  }
}
