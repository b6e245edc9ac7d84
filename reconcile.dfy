/** Cross-checking the Open-Meteo report against Visual Crossing
    (`Speaker.compare_reports`). The reports are parameters here rather than
    the providers' `report` attributes; the timestamp conversion
    (`date_time_conversion`) and the secondary lookup (`search_report`) are
    collaborators whose code is not part of this model. */
module Reconcile {
  import opened PyValue

  /** The `date` and `time` entries `date_time_conversion` yields for a timestamp. */
  datatype Stamp = Stamp(date: Value, time: Value)

  /** One entry of the difference list: the hour, the field, the primary
      value and the secondary one (lines 281-287). */
  datatype Disagreement = Disagreement(time: Value, field: string, primary: Value, secondary: Value)

  /** Lines 277-279: the values differ (`!=`) and the secondary lookup did not
      answer `False` (an identity test: 0 is not False). */
  predicate Disagrees(primary: Value, secondary: Value) {
    !PyEq(primary, secondary) && secondary != Bool(false)
  }

  /** Lines 269-287 for one time index `i` of field `key`. */
  function Cell(key: string, value: Value, times: Value, i: nat,
                convert: Value -> Py<Stamp>, search: (string, Value, Value) -> Py<Value>): Py<seq<Disagreement>> {
    match Index(times, i)
    case Raise(e) => Raise(e)
    case Ok(t) =>
      match convert(t)
      case Raise(e) => Raise(e)
      case Ok(stamp) =>
        match search(key, stamp.date, stamp.time)
        case Raise(e) => Raise(e)
        case Ok(secondary) =>
          match Index(value, i)
          case Raise(e) => Raise(e)
          case Ok(primary) =>
            if !Disagrees(primary, secondary) then Ok([])
            // the entry's `time` is the set `{time}`: an unhashable time raises
            else if !Hashable(stamp.time) then Raise(TypeError)
            else Ok([Disagreement(stamp.time, key, primary, secondary)])
  }

  /** The inner loop (line 268) over the first `n` time indices of field `key`. */
  function Row(key: string, value: Value, times: Value, n: nat,
               convert: Value -> Py<Stamp>, search: (string, Value, Value) -> Py<Value>): Py<seq<Disagreement>> {
    if n == 0 then Ok([])
    else
      match Row(key, value, times, n - 1, convert, search)
      case Raise(e) => Raise(e)
      case Ok(before) =>
        match Cell(key, value, times, n - 1, convert, search)
        case Raise(e) => Raise(e)
        case Ok(cell) => Ok(before + cell)
  }

  /** Lines 265-287 for one entry of the hourly dict: nothing for `time`, the
      whole inner loop for any other key. */
  function Field(hourly: seq<(string, Value)>, key: string, value: Value,
                 convert: Value -> Py<Stamp>, search: (string, Value, Value) -> Py<Value>): Py<seq<Disagreement>> {
    if key == "time" then Ok([])
    else
      match Find(hourly, "time")
      case Raise(e) => Raise(e)
      case Ok(times) =>
        match Len(times)
        case Raise(e) => Raise(e)
        case Ok(n) => Row(key, value, times, n, convert, search)
  }

  /** The outer loop (line 264) over the first `k` entries of the hourly dict. */
  function Fields(hourly: seq<(string, Value)>, k: nat,
                  convert: Value -> Py<Stamp>, search: (string, Value, Value) -> Py<Value>): Py<seq<Disagreement>>
    requires k <= |hourly|
  {
    if k == 0 then Ok([])
    else
      match Fields(hourly, k - 1, convert, search)
      case Raise(e) => Raise(e)
      case Ok(before) =>
        match Field(hourly, hourly[k - 1].0, hourly[k - 1].1, convert, search)
        case Raise(e) => Raise(e)
        case Ok(more) => Ok(before + more)
  }

  /** What `compare_reports` returns or raises (Speaker.py:253-288) for the
      Open-Meteo report `om` and the Visual Crossing report `vc`. */
  function Differences(om: Value, vc: Value, convert: Value -> Py<Stamp>,
                       search: (string, Value, Value) -> Py<Value>): Py<seq<Disagreement>> {
    if om != None && vc != None then
      match GetItem(om, "hourly")
      case Raise(e) => Raise(e)
      case Ok(hourly) =>
        match hourly
        case Dict(es) => Fields(es, |es|, convert, search)
        // only a dict has `.items()`
        case _ => Raise(AttributeError)
    else Ok([])
  }

  /** Once the inner loop has raised, it goes on raising the same exception. */
  lemma {:induction false} RowRaises(key: string, value: Value, times: Value, n: nat, m: nat,
                                     convert: Value -> Py<Stamp>, search: (string, Value, Value) -> Py<Value>)
    requires n <= m && Row(key, value, times, n, convert, search).Raise?
    ensures Row(key, value, times, m, convert, search) == Row(key, value, times, n, convert, search)
    decreases m
  {
    if n < m {
      RowRaises(key, value, times, n, m - 1, convert, search);
    }
  }

  /** Once the outer loop has raised, it goes on raising the same exception. */
  lemma {:induction false} FieldsRaises(hourly: seq<(string, Value)>, k: nat, m: nat,
                                        convert: Value -> Py<Stamp>, search: (string, Value, Value) -> Py<Value>)
    requires k <= m <= |hourly| && Fields(hourly, k, convert, search).Raise?
    ensures Fields(hourly, m, convert, search) == Fields(hourly, k, convert, search)
    decreases m
  {
    if k < m {
      FieldsRaises(hourly, k, m - 1, convert, search);
    }
  }

  /** An exception at time index `i` of the `k`-th hourly entry is what the
      whole comparison raises. */
  lemma CellRaises(hourly: seq<(string, Value)>, k: nat, times: Value, i: nat, n: nat,
                   convert: Value -> Py<Stamp>, search: (string, Value, Value) -> Py<Value>)
    requires k < |hourly| && hourly[k].0 != "time"
    requires Fields(hourly, k, convert, search).Ok?
    requires Find(hourly, "time") == Ok(times) && Len(times) == Ok(n) && i < n
    requires Row(hourly[k].0, hourly[k].1, times, i, convert, search).Ok?
    requires Cell(hourly[k].0, hourly[k].1, times, i, convert, search).Raise?
    ensures Fields(hourly, |hourly|, convert, search)
            == Raise(Cell(hourly[k].0, hourly[k].1, times, i, convert, search).error)
  {
    RowRaises(hourly[k].0, hourly[k].1, times, i + 1, n, convert, search);
    FieldsRaises(hourly, k + 1, |hourly|, convert, search);
  }

  /** One more time index of the inner loop. */
  lemma RowNext(key: string, value: Value, times: Value, i: nat,
                convert: Value -> Py<Stamp>, search: (string, Value, Value) -> Py<Value>)
    requires Row(key, value, times, i, convert, search).Ok?
    ensures Row(key, value, times, i + 1, convert, search)
            == match Cell(key, value, times, i, convert, search)
               case Raise(e) => Raise(e)
               case Ok(cell) => Ok(Row(key, value, times, i, convert, search).value + cell)
  {
  }

  /** One more entry of the outer loop. */
  lemma FieldsNext(hourly: seq<(string, Value)>, k: nat,
                   convert: Value -> Py<Stamp>, search: (string, Value, Value) -> Py<Value>)
    requires k < |hourly| && Fields(hourly, k, convert, search).Ok?
    ensures Fields(hourly, k + 1, convert, search)
            == match Field(hourly, hourly[k].0, hourly[k].1, convert, search)
               case Raise(e) => Raise(e)
               case Ok(more) => Ok(Fields(hourly, k, convert, search).value + more)
  {
  }

  /** One pass of the inner loop of `compare_reports` (lines 269-287): the
      disagreement at time index `i` of field `key`, if there is one. */
  method CompareHour(key: string, value: Value, times: Value, i: nat,
                     convert: Value -> Py<Stamp>, search: (string, Value, Value) -> Py<Value>)
    returns (r: Py<seq<Disagreement>>)
    ensures r == Cell(key, value, times, i, convert, search)
  {
    var t := Index(times, i);
    if t.Raise? {
      return Raise(t.error);
    }
    var stamp := convert(t.value);
    if stamp.Raise? {
      return Raise(stamp.error);
    }
    var secondary := search(key, stamp.value.date, stamp.value.time);
    if secondary.Raise? {
      return Raise(secondary.error);
    }
    var primary := Index(value, i);
    if primary.Raise? {
      return Raise(primary.error);
    }
    r := Ok([]);
    if !PyEq(primary.value, secondary.value) {
      if secondary.value == Bool(false) {
      } else {
        if !Hashable(stamp.value.time) {
          return Raise(TypeError);
        }
        r := Ok([Disagreement(stamp.value.time, key, primary.value, secondary.value)]);
      }
    }
  }

  /** The inner loop of `compare_reports` (line 268): for every time index of
      field `key`, append the disagreement, if any, to `difference`; any
      exception ends the call. */
  method CompareHours(key: string, value: Value, times: Value, n: nat, difference: seq<Disagreement>,
                      convert: Value -> Py<Stamp>, search: (string, Value, Value) -> Py<Value>)
    returns (r: Py<seq<Disagreement>>)
    ensures Row(key, value, times, n, convert, search).Ok? ==>
              r == Ok(difference + Row(key, value, times, n, convert, search).value)
    ensures Row(key, value, times, n, convert, search).Raise? ==>
              r == Row(key, value, times, n, convert, search)
  {
    var acc := difference;
    ghost var row: seq<Disagreement> := [];
    var i := 0;
    while i < n
      invariant 0 <= i <= n
      invariant Row(key, value, times, i, convert, search) == Ok(row)
      invariant acc == difference + row
    {
      var cell := CompareHour(key, value, times, i, convert, search);
      RowNext(key, value, times, i, convert, search);
      if cell.Raise? {
        RowRaises(key, value, times, i + 1, n, convert, search);
        return Raise(cell.error);
      }
      acc := acc + cell.value;
      row := row + cell.value;
      i := i + 1;
    }
    return Ok(acc);
  }

  /** `compare_reports` (lines 253-288): the outer loop over the primary
      report's hourly fields, each non-`time` field extending `difference`
      through the inner loop; any exception ends the call. */
  method CompareReports(om: Value, vc: Value, convert: Value -> Py<Stamp>,
                        search: (string, Value, Value) -> Py<Value>) returns (r: Py<seq<Disagreement>>)
    ensures r == Differences(om, vc, convert, search)
  {
    var difference: seq<Disagreement> := [];
    if om != None && vc != None {
      var report := GetItem(om, "hourly");
      if report.Raise? {
        return Raise(report.error);
      }
      if !report.value.Dict? {
        return Raise(AttributeError);
      }
      var hourly := report.value.entries;
      var k := 0;
      while k < |hourly|
        invariant 0 <= k <= |hourly|
        invariant Fields(hourly, k, convert, search) == Ok(difference)
      {
        var (key, value) := hourly[k];
        if key != "time" {
          var times := Find(hourly, "time");
          if times.Raise? {
            FieldsRaises(hourly, k + 1, |hourly|, convert, search);
            return Raise(times.error);
          }
          var n := Len(times.value);
          if n.Raise? {
            FieldsRaises(hourly, k + 1, |hourly|, convert, search);
            return Raise(n.error);
          }
          FieldsNext(hourly, k, convert, search);
          assert Field(hourly, key, value, convert, search) == Row(key, value, times.value, n.value, convert, search);
          var extended := CompareHours(key, value, times.value, n.value, difference, convert, search);
          if extended.Raise? {
            FieldsRaises(hourly, k + 1, |hourly|, convert, search);
            return extended;
          }
          difference := extended.value;
        } else {
          FieldsNext(hourly, k, convert, search);
          assert difference + [] == difference;
        }
        k := k + 1;
      }
    }
    return Ok(difference);
  }

  /** Every entry of the inner loop is for field `key` and records a real
      disagreement. */
  lemma {:induction false} RowSound(key: string, value: Value, times: Value, n: nat,
                                    convert: Value -> Py<Stamp>, search: (string, Value, Value) -> Py<Value>)
    requires Row(key, value, times, n, convert, search).Ok?
    ensures forall d :: d in Row(key, value, times, n, convert, search).value ==>
              d.field == key && Disagrees(d.primary, d.secondary)
  {
    if n > 0 {
      RowSound(key, value, times, n - 1, convert, search);
    }
  }

  /** Every entry of the outer loop is for a key of the hourly dict other than
      `time`, and records a real disagreement. */
  lemma {:induction false} FieldsSound(hourly: seq<(string, Value)>, k: nat,
                                       convert: Value -> Py<Stamp>, search: (string, Value, Value) -> Py<Value>)
    requires k <= |hourly| && Fields(hourly, k, convert, search).Ok?
    ensures forall d :: d in Fields(hourly, k, convert, search).value ==>
              d.field != "time" && HasKey(hourly, d.field) && Disagrees(d.primary, d.secondary)
  {
    if k > 0 {
      FieldsSound(hourly, k - 1, convert, search);
      var key := hourly[k - 1].0;
      if key != "time" {
        var times := Find(hourly, "time").value;
        RowSound(key, hourly[k - 1].1, times, Len(times).value, convert, search);
      }
    }
  }

  /** What the comparison reports is only disagreements: never the `time`
      key, never a secondary value of False, always a field of the primary
      report's hourly data. Without both reports it reports nothing. */
  lemma DifferencesSound(om: Value, vc: Value, convert: Value -> Py<Stamp>,
                         search: (string, Value, Value) -> Py<Value>)
    ensures om == None || vc == None ==> Differences(om, vc, convert, search) == Ok([])
    ensures Differences(om, vc, convert, search).Ok? ==>
              forall d :: d in Differences(om, vc, convert, search).value ==>
                && d.field != "time"
                && d.secondary != Bool(false)
                && !PyEq(d.primary, d.secondary)
                && GetItem(om, "hourly").Ok? && GetItem(om, "hourly").value.Dict?
                && HasKey(GetItem(om, "hourly").value.entries, d.field)
  {
    if om != None && vc != None && GetItem(om, "hourly").Ok? && GetItem(om, "hourly").value.Dict?
       && Differences(om, vc, convert, search).Ok? {
      var hourly := GetItem(om, "hourly").value.entries;
      FieldsSound(hourly, |hourly|, convert, search);
    }
  }

  /** The inner loop only appends: the entries for the first `n` indices come
      first, in the same order, among those for the first `m`. */
  lemma {:induction false} RowPrefix(key: string, value: Value, times: Value, n: nat, m: nat,
                                     convert: Value -> Py<Stamp>, search: (string, Value, Value) -> Py<Value>)
    requires n <= m && Row(key, value, times, m, convert, search).Ok?
    ensures Row(key, value, times, n, convert, search).Ok?
    ensures Row(key, value, times, n, convert, search).value <= Row(key, value, times, m, convert, search).value
    decreases m
  {
    if n < m {
      RowPrefix(key, value, times, n, m - 1, convert, search);
    }
  }

  /** The outer loop only appends: the entries for the first `k` hourly
      fields come first, in the same order, among those for the first `m`. */
  lemma {:induction false} FieldsPrefix(hourly: seq<(string, Value)>, k: nat, m: nat,
                                        convert: Value -> Py<Stamp>, search: (string, Value, Value) -> Py<Value>)
    requires k <= m <= |hourly| && Fields(hourly, m, convert, search).Ok?
    ensures Fields(hourly, k, convert, search).Ok?
    ensures Fields(hourly, k, convert, search).value <= Fields(hourly, m, convert, search).value
    decreases m
  {
    if k < m {
      FieldsPrefix(hourly, k, m - 1, convert, search);
    }
  }

  /** The inner loop keeps what each time index yields. */
  lemma {:induction false} RowComplete(key: string, value: Value, times: Value, i: nat, n: nat, d: Disagreement,
                                       convert: Value -> Py<Stamp>, search: (string, Value, Value) -> Py<Value>)
    requires i < n && Row(key, value, times, n, convert, search).Ok?
    requires Cell(key, value, times, i, convert, search) == Ok([d])
    ensures d in Row(key, value, times, n, convert, search).value
    decreases n
  {
    if i < n - 1 {
      RowComplete(key, value, times, i, n - 1, d, convert, search);
    }
  }

  /** The outer loop keeps what each hourly entry yields, after everything
      found for the earlier entries. */
  lemma {:induction false} FieldsComplete(hourly: seq<(string, Value)>, k: nat, m: nat, d: Disagreement,
                                          convert: Value -> Py<Stamp>, search: (string, Value, Value) -> Py<Value>)
    requires k < m <= |hourly| && Fields(hourly, m, convert, search).Ok?
    requires Field(hourly, hourly[k].0, hourly[k].1, convert, search).Ok?
    requires d in Field(hourly, hourly[k].0, hourly[k].1, convert, search).value
    ensures d in Fields(hourly, m, convert, search).value
    decreases m
  {
    if k < m - 1 {
      FieldsComplete(hourly, k, m - 1, d, convert, search);
    }
  }

  /** Completeness of `compare_reports`: given both reports, every
      disagreement at a time index of a non-`time` field of the primary
      hourly data is reported. */
  lemma DifferencesComplete(om: Value, vc: Value, hourly: seq<(string, Value)>, k: nat, times: Value,
                            i: nat, d: Disagreement,
                            convert: Value -> Py<Stamp>, search: (string, Value, Value) -> Py<Value>)
    requires om != None && vc != None && GetItem(om, "hourly") == Ok(Dict(hourly))
    requires Differences(om, vc, convert, search).Ok?
    requires k < |hourly| && hourly[k].0 != "time"
    requires Find(hourly, "time") == Ok(times) && Len(times).Ok? && i < Len(times).value
    requires Cell(hourly[k].0, hourly[k].1, times, i, convert, search) == Ok([d])
    ensures d in Differences(om, vc, convert, search).value
  {
    var key, value, n := hourly[k].0, hourly[k].1, Len(times).value;
    assert Differences(om, vc, convert, search) == Fields(hourly, |hourly|, convert, search);
    FieldsPrefix(hourly, k + 1, |hourly|, convert, search);
    assert Field(hourly, key, value, convert, search) == Row(key, value, times, n, convert, search);
    RowComplete(key, value, times, i, n, d, convert, search);
    FieldsComplete(hourly, k, |hourly|, d, convert, search);
  }

  /** A cell yields an entry exactly when the two values disagree. */
  lemma CellMeaning(key: string, value: Value, times: Value, i: nat, p: Value, s: Value, stamp: Stamp,
                    convert: Value -> Py<Stamp>, search: (string, Value, Value) -> Py<Value>)
    requires Index(times, i).Ok? && convert(Index(times, i).value) == Ok(stamp)
    requires search(key, stamp.date, stamp.time) == Ok(s) && Index(value, i) == Ok(p)
    ensures Cell(key, value, times, i, convert, search)
            == if !Disagrees(p, s) then Ok([])
               else if Hashable(stamp.time) then Ok([Disagreement(stamp.time, key, p, s)])
               else Raise(TypeError)
  {
  }

  /** An entry of one cell is made from that hour's data: the converted
      time, the field, the primary value `value[i]` and what the secondary
      lookup answered for that hour. */
  lemma CellOrigin(key: string, value: Value, times: Value, i: nat, d: Disagreement,
                   convert: Value -> Py<Stamp>, search: (string, Value, Value) -> Py<Value>)
    requires Cell(key, value, times, i, convert, search) == Ok([d])
    ensures Index(times, i).Ok? && convert(Index(times, i).value).Ok?
    ensures var stamp := convert(Index(times, i).value).value;
            && d.time == stamp.time && Hashable(d.time)
            && d.field == key
            && Index(value, i) == Ok(d.primary)
            && search(key, stamp.date, stamp.time) == Ok(d.secondary)
            && Disagrees(d.primary, d.secondary)
  {
  }

  /** Entry `d` is what hour `i` of the `j`-th hourly field yields. */
  predicate FoundAt(hourly: seq<(string, Value)>, j: nat, i: nat, d: Disagreement,
                    convert: Value -> Py<Stamp>, search: (string, Value, Value) -> Py<Value>) {
    && j < |hourly| && hourly[j].0 != "time"
    && Find(hourly, "time").Ok? && Len(Find(hourly, "time").value).Ok?
    && i < Len(Find(hourly, "time").value).value
    && Cell(hourly[j].0, hourly[j].1, Find(hourly, "time").value, i, convert, search) == Ok([d])
  }

  /** Every entry of the inner loop is what one of its hours yields. */
  lemma {:induction false} RowOrigin(key: string, value: Value, times: Value, n: nat,
                                     convert: Value -> Py<Stamp>, search: (string, Value, Value) -> Py<Value>)
    requires Row(key, value, times, n, convert, search).Ok?
    ensures forall d :: d in Row(key, value, times, n, convert, search).value ==>
              exists i :: 0 <= i < n && Cell(key, value, times, i, convert, search) == Ok([d])
  {
    if n > 0 {
      RowOrigin(key, value, times, n - 1, convert, search);
      var before := Row(key, value, times, n - 1, convert, search).value;
      var cell := Cell(key, value, times, n - 1, convert, search).value;
      assert cell == [] || Cell(key, value, times, n - 1, convert, search) == Ok([cell[0]]);
      forall d | d in Row(key, value, times, n, convert, search).value
        ensures exists i :: 0 <= i < n && Cell(key, value, times, i, convert, search) == Ok([d])
      {
        assert d in before + cell;
        if d !in before {
          assert Cell(key, value, times, n - 1, convert, search) == Ok([d]);
        }
      }
    }
  }

  /** Every entry of the outer loop is what some hour of some non-`time`
      field yields. */
  lemma {:induction false} FieldsOrigin(hourly: seq<(string, Value)>, k: nat,
                                        convert: Value -> Py<Stamp>, search: (string, Value, Value) -> Py<Value>)
    requires k <= |hourly| && Fields(hourly, k, convert, search).Ok?
    ensures forall d :: d in Fields(hourly, k, convert, search).value ==>
              exists j, i :: 0 <= j < k && FoundAt(hourly, j, i, d, convert, search)
  {
    if k > 0 {
      FieldsOrigin(hourly, k - 1, convert, search);
      var before := Fields(hourly, k - 1, convert, search).value;
      var (key, value) := hourly[k - 1];
      var more := Field(hourly, key, value, convert, search).value;
      forall d | d in Fields(hourly, k, convert, search).value
        ensures exists j, i :: 0 <= j < k && FoundAt(hourly, j, i, d, convert, search)
      {
        assert d in before + more;
        if d !in before {
          var times := Find(hourly, "time").value;
          var n := Len(times).value;
          assert more == Row(key, value, times, n, convert, search).value;
          RowOrigin(key, value, times, n, convert, search);
          var i :| 0 <= i < n && Cell(key, value, times, i, convert, search) == Ok([d]);
          assert FoundAt(hourly, k - 1, i, d, convert, search);
        }
      }
    }
  }

  /** `compare_reports` reports exactly the disagreements: given both
      reports, an entry is in the result if and only if some hour of some
      non-`time` field of the primary hourly data yields it. */
  lemma DifferencesExactly(om: Value, vc: Value, hourly: seq<(string, Value)>,
                           convert: Value -> Py<Stamp>, search: (string, Value, Value) -> Py<Value>)
    requires om != None && vc != None && GetItem(om, "hourly") == Ok(Dict(hourly))
    requires Differences(om, vc, convert, search).Ok?
    ensures forall d :: d in Differences(om, vc, convert, search).value <==>
              exists j, i :: 0 <= j < |hourly| && FoundAt(hourly, j, i, d, convert, search)
  {
    assert Differences(om, vc, convert, search) == Fields(hourly, |hourly|, convert, search);
    FieldsOrigin(hourly, |hourly|, convert, search);
    forall d, j, i | 0 <= j < |hourly| && FoundAt(hourly, j, i, d, convert, search)
      ensures d in Differences(om, vc, convert, search).value
    {
      DifferencesComplete(om, vc, hourly, j, Find(hourly, "time").value, i, d, convert, search);
    }
  }
}
