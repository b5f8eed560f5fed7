/** Tabular data as the recorders handle it: a frame is a sequence of rows, a row maps column
    names to cells. `DataFrame` is the mutable frame that the `format` steps change in place;
    each of its methods is one pandas operation, specified by a function on the rows. */
module Frames {
  import opened Strings

  datatype Option<T> = None | Some(value: T)

  /** A parsed point in time, kept as its day part "YYYY-MM-DD" and its time of day. */
  datatype Stamp = Stamp(day: string, clock: string)

  const Midnight: string := "00:00:00"

  /** One cell. `Null` stands for Python's None as well as pandas' NaN and NaT. */
  datatype Value = Null | Str(s: string) | Num(x: real) | Flag(b: bool) | Time(t: Stamp)

  type Row = map<string, Value>

  /** The cell of column `c`, missing cells reading as NaN. */
  function Get(r: Row, c: string): Value
  {
    if c in r then r[c] else Null
  }

  /** `a + b` on two string cells; a NaN on either side gives NaN. */
  function Concat(a: Value, b: Value): Value
  {
    if a.Str? && b.Str? then Str(a.s + b.s) else Null
  }

  /** `.dt.strftime` with the day format, or with the ISO-8601 format when `iso`; NaT gives NaN. */
  function Strftime(v: Value, iso: bool): Value
  {
    match v
    case Time(t) => Str(if iso then t.day + "T" + t.clock else t.day)
    case _ => Null
  }

  /** `pd.to_datetime` on a cell: a day string becomes that day at midnight, a timestamp stays. */
  function ToDatetime(v: Value): Value
  {
    match v
    case Str(s) => Time(Stamp(s, Midnight))
    case Time(_) => v
    case _ => Null
  }

  lemma DayRoundTrip(s: string)
    ensures Strftime(ToDatetime(Str(s)), false) == Str(s)
  {
  }

  /** `df.replace(r'^\s*$', 0.0, regex=True)` on one cell. */
  function BlankToZero(v: Value): Value
  {
    if IsBlankCell(v) then Num(0.0) else v
  }

  /** A cell that `df.replace(r'^\s*$', 0.0, regex=True)` would still replace. */
  predicate IsBlankCell(v: Value)
  {
    v.Str? && IsBlank(v.s)
  }

  ghost predicate Injective(m: map<string, string>)
  {
    forall a, b :: a in m && b in m && a != b ==> m[a] != m[b]
  }

  /** A `rename(columns=...)` table: no two columns are renamed to the same name. */
  type Renames = m: map<string, string> | Injective(m) witness map[]

  // ---------------------------------------------------------------- rows

  /** `rename(columns=m)` on one row: the renamed columns move, all others stay. */
  function RenameRow(r: Row, m: Renames): Row
  {
    (map k | k in r && k !in m :: r[k]) + (map s | s in r && s in m :: m[s] := r[s])
  }

  lemma RenameMoves(r: Row, m: Renames, src: string)
    requires src in r && src in m
    ensures Get(RenameRow(r, m), m[src]) == r[src]
  {
    var t := RenameRow(r, m);
    assert m[src] in t;
  }

  lemma RenameKeeps(r: Row, m: Renames, k: string)
    requires k !in m && forall s :: s in r && s in m ==> m[s] != k
    ensures Get(RenameRow(r, m), k) == Get(r, k)
  {
  }

  /** The column a present source column is renamed onto holds that source's cell; without the
      source it keeps its own. */
  lemma RenameTarget(r: Row, m: Renames, src: string)
    requires src in m && m[src] !in m
    ensures Get(RenameRow(r, m), m[src]) == (if src in r then r[src] else Get(r, m[src]))
  {
    if src in r {
      RenameMoves(r, m, src);
    } else {
      assert forall s :: s in r && s in m ==> m[s] != m[src];
    }
  }

  function BlanksToZeroRow(r: Row): Row
  {
    map k | k in r :: BlankToZero(r[k])
  }

  lemma BlanksToZeroGet(r: Row, c: string)
    ensures Get(BlanksToZeroRow(r), c) == BlankToZero(Get(r, c))
  {
  }

  /** After the blank replacement no cell of the row is blank. */
  lemma BlanksToZeroClean(r: Row)
    ensures forall k :: k in BlanksToZeroRow(r) ==> !IsBlankCell(BlanksToZeroRow(r)[k])
  {
  }

  /** `replace({c: table})` on one row: only a present cell whose value is in `table` changes. */
  function ReplaceRow(r: Row, c: string, table: map<Value, Value>): Row
  {
    if c in r && r[c] in table then r[c := table[r[c]]] else r
  }

  /** `fillna({c: v})` on one row. */
  function FillNaRow(r: Row, c: string, v: Value): Row
  {
    if c in r && r[c] == Null then r[c := v] else r
  }

  // ---------------------------------------------------------------- frames

  function MapRows(rows: seq<Row>, f: Row -> Row): (out: seq<Row>)
    ensures |out| == |rows| && forall i :: 0 <= i < |rows| ==> out[i] == f(rows[i])
  {
    seq(|rows|, i requires 0 <= i < |rows| => f(rows[i]))
  }

  function RenameFrame(rows: seq<Row>, m: Renames): seq<Row>
  {
    MapRows(rows, r => RenameRow(r, m))
  }

  /** `df[c] = df[c].apply(f)`. */
  function ApplyFrame(rows: seq<Row>, c: string, f: Value -> Value): seq<Row>
  {
    MapRows(rows, r => r[c := f(Get(r, c))])
  }

  function BlanksToZeroFrame(rows: seq<Row>): seq<Row>
  {
    MapRows(rows, BlanksToZeroRow)
  }

  /** `df[c] = v` for a constant `v`. */
  function AssignFrame(rows: seq<Row>, c: string, v: Value): seq<Row>
  {
    MapRows(rows, r => r[c := v])
  }

  /** `df[c] = <expression over the other columns>`. */
  function AssignWithFrame(rows: seq<Row>, c: string, f: Row -> Value): seq<Row>
  {
    MapRows(rows, r => r[c := f(r)])
  }

  function ReplaceFrame(rows: seq<Row>, c: string, table: map<Value, Value>): seq<Row>
  {
    MapRows(rows, r => ReplaceRow(r, c, table))
  }

  function FillNaFrame(rows: seq<Row>, c: string, v: Value): seq<Row>
  {
    MapRows(rows, r => FillNaRow(r, c, v))
  }

  /** `c in df.columns`. */
  predicate HasColumn(rows: seq<Row>, c: string)
  {
    exists i :: 0 <= i < |rows| && c in rows[i]
  }

  // ---------------------------------------------------------------- drop_duplicates

  function KeysOf(rows: seq<Row>, c: string): set<Value>
  {
    if rows == [] then {} else {Get(rows[0], c)} + KeysOf(rows[1..], c)
  }

  lemma {:induction false} KeysOfMember(rows: seq<Row>, c: string, v: Value)
    ensures v in KeysOf(rows, c) <==> exists i :: 0 <= i < |rows| && Get(rows[i], c) == v
  {
    if rows != [] {
      KeysOfMember(rows[1..], c, v);
      if v in KeysOf(rows[1..], c) {
        var i :| 0 <= i < |rows| - 1 && Get(rows[1..][i], c) == v;
        assert Get(rows[i + 1], c) == v;
      }
      if exists i :: 0 <= i < |rows| && Get(rows[i], c) == v {
        var i :| 0 <= i < |rows| && Get(rows[i], c) == v;
        if i > 0 {
          assert Get(rows[1..][i - 1], c) == v;
        }
      }
    }
  }

  /** Row `i` is the last one carrying its value of column `c`. */
  predicate IsLastOccurrence(rows: seq<Row>, c: string, i: int)
    requires 0 <= i < |rows|
  {
    forall j :: i < j < |rows| ==> Get(rows[j], c) != Get(rows[i], c)
  }

  /** `drop_duplicates(subset=c, keep='last')`. */
  function DropDuplicatesKeepLast(rows: seq<Row>, c: string): (out: seq<Row>)
    ensures |out| <= |rows|
  {
    if rows == [] then []
    else
      var rest := DropDuplicatesKeepLast(rows[1..], c);
      if Get(rows[0], c) in KeysOf(rows[1..], c) then rest else [rows[0]] + rest
  }

  /** No key is lost: every value of `c` in the input is still present. */
  lemma {:induction false} DropDuplicatesKeys(rows: seq<Row>, c: string)
    ensures KeysOf(DropDuplicatesKeepLast(rows, c), c) == KeysOf(rows, c)
  {
    if rows != [] {
      DropDuplicatesKeys(rows[1..], c);
      var rest := DropDuplicatesKeepLast(rows[1..], c);
      if Get(rows[0], c) !in KeysOf(rows[1..], c) {
        assert ([rows[0]] + rest)[1..] == rest;
      }
    }
  }

  /** After `drop_duplicates(subset=c)` the values of `c` are pairwise distinct. */
  lemma {:induction false} DropDuplicatesUnique(rows: seq<Row>, c: string)
    ensures var out := DropDuplicatesKeepLast(rows, c);
            forall i, j :: 0 <= i < j < |out| ==> Get(out[i], c) != Get(out[j], c)
  {
    if rows != [] {
      DropDuplicatesUnique(rows[1..], c);
      var rest := DropDuplicatesKeepLast(rows[1..], c);
      if Get(rows[0], c) !in KeysOf(rows[1..], c) {
        DropDuplicatesKeys(rows[1..], c);
        var out := [rows[0]] + rest;
        forall i, j | 0 <= i < j < |out| ensures Get(out[i], c) != Get(out[j], c) {
          if i == 0 {
            KeysOfMember(rest, c, Get(out[j], c));
            assert Get(rest[j - 1], c) == Get(out[j], c);
          } else {
            assert out[i] == rest[i - 1] && out[j] == rest[j - 1];
          }
        }
      }
    }
  }

  /** The rows that survive are exactly the last occurrences of their keys: each last
      occurrence is kept, and each kept row is a last occurrence. */
  lemma {:induction false} DropDuplicatesKeepsLast(rows: seq<Row>, c: string)
    ensures var out := DropDuplicatesKeepLast(rows, c);
            && (forall i :: 0 <= i < |rows| && IsLastOccurrence(rows, c, i) ==> rows[i] in out)
            && (forall r :: r in out ==> exists i :: 0 <= i < |rows| && IsLastOccurrence(rows, c, i) && rows[i] == r)
  {
    if rows != [] {
      var tail := rows[1..];
      DropDuplicatesKeepsLast(tail, c);
      var rest := DropDuplicatesKeepLast(tail, c);
      var out := DropDuplicatesKeepLast(rows, c);
      KeysOfMember(tail, c, Get(rows[0], c));
      assert Get(rows[0], c) !in KeysOf(tail, c) <==> IsLastOccurrence(rows, c, 0) by {
        if !IsLastOccurrence(rows, c, 0) {
          var j :| 0 < j < |rows| && Get(rows[j], c) == Get(rows[0], c);
          assert Get(tail[j - 1], c) == Get(rows[0], c);
        }
      }
      forall i | 0 <= i < |rows| && IsLastOccurrence(rows, c, i) ensures rows[i] in out {
        if i > 0 {
          assert IsLastOccurrence(tail, c, i - 1) by {
            forall j | i - 1 < j < |tail| ensures Get(tail[j], c) != Get(tail[i - 1], c) {
              assert tail[j] == rows[j + 1];
            }
          }
        }
      }
      forall r | r in out ensures exists i :: 0 <= i < |rows| && IsLastOccurrence(rows, c, i) && rows[i] == r {
        if r in rest {
          var i :| 0 <= i < |tail| && IsLastOccurrence(tail, c, i) && tail[i] == r;
          assert IsLastOccurrence(rows, c, i + 1) by {
            forall j | i + 1 < j < |rows| ensures Get(rows[j], c) != Get(rows[i + 1], c) {
              assert rows[j] == tail[j - 1];
            }
          }
        } else {
          assert r == rows[0];
        }
      }
    }
  }

  /** `out` is `rows` de-duplicated on column `c` keeping the last occurrence: its keys are
      pairwise distinct, every last occurrence in `rows` is in it, and every row of it is one. */
  predicate KeepsLastByKey(rows: seq<Row>, out: seq<Row>, c: string)
  {
    && (forall i, j :: 0 <= i < j < |out| ==> Get(out[i], c) != Get(out[j], c))
    && (forall i :: 0 <= i < |rows| && IsLastOccurrence(rows, c, i) ==> rows[i] in out)
    && (forall r :: r in out ==> exists i :: 0 <= i < |rows| && IsLastOccurrence(rows, c, i) && rows[i] == r)
  }

  lemma DropDuplicatesKeepsLastByKey(rows: seq<Row>, c: string)
    ensures KeepsLastByKey(rows, DropDuplicatesKeepLast(rows, c), c)
  {
    DropDuplicatesUnique(rows, c);
    DropDuplicatesKeepsLast(rows, c);
  }

  /** Every surviving row is one of the input rows. */
  lemma DropDuplicatesSubset(rows: seq<Row>, c: string)
    ensures forall r :: r in DropDuplicatesKeepLast(rows, c) ==> r in rows
  {
    DropDuplicatesKeepsLast(rows, c);
  }

  // ---------------------------------------------------------------- the mutable frame

  /** A pandas DataFrame that the recorders change in place. */
  class DataFrame {
    var rows: seq<Row>

    constructor (rows: seq<Row>)
      ensures this.rows == rows
    {
      this.rows := rows;
    }

    method Rename(m: Renames)
      modifies this
      ensures rows == RenameFrame(old(rows), m)
    {
      rows := RenameFrame(rows, m);
    }

    method Apply(c: string, f: Value -> Value)
      modifies this
      ensures rows == ApplyFrame(old(rows), c, f)
    {
      rows := ApplyFrame(rows, c, f);
    }

    method ReplaceBlanks()
      modifies this
      ensures rows == BlanksToZeroFrame(old(rows))
    {
      rows := BlanksToZeroFrame(rows);
    }

    method Assign(c: string, v: Value)
      modifies this
      ensures rows == AssignFrame(old(rows), c, v)
    {
      rows := AssignFrame(rows, c, v);
    }

    method AssignWith(c: string, f: Row -> Value)
      modifies this
      ensures rows == AssignWithFrame(old(rows), c, f)
    {
      rows := AssignWithFrame(rows, c, f);
    }

    method Replace(c: string, table: map<Value, Value>)
      modifies this
      ensures rows == ReplaceFrame(old(rows), c, table)
    {
      rows := ReplaceFrame(rows, c, table);
    }

    method FillNa(c: string, v: Value)
      modifies this
      ensures rows == FillNaFrame(old(rows), c, v)
    {
      rows := FillNaFrame(rows, c, v);
    }

    method DropDuplicates(c: string)
      modifies this
      ensures rows == DropDuplicatesKeepLast(old(rows), c)
    {
      rows := DropDuplicatesKeepLast(rows, c);
    }
  }

  /** `pd_valid(df)`: the fetch produced a frame and it has rows. */
  predicate PdValid(df: Option<seq<Row>>)
  {
    df.Some? && |df.value| > 0
  }
}
