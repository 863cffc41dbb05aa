/**
 * A one-row pandas DataFrame: its cells in column order. Columns hold numbers
 * (`float64`, or the 0/1 indicators `get_dummies` creates) or the categorical
 * values `pd.cut` creates.
 */
module Frames {
  import opened Wrappers
  import opened Dicts

  /** A cell: a number, or a categorical bin label (None for NaN) out of `levels` categories. */
  datatype Value = Num(x: real) | Category(bin: Option<nat>, levels: nat)

  type Row = Dict<Value>

  /** The frame `pd.DataFrame([raw])`: one numeric column per key of `raw`, in key order. */
  function FromRecord(raw: Dict<real>): (r: Row)
    ensures Keys(r) == Keys(raw)
    ensures forall i :: 0 <= i < |raw| ==> r[i].1 == Num(raw[i].1)
  {
    seq(|raw|, i requires 0 <= i < |raw| => (raw[i].0, Num(raw[i].1)))
  }

  /** Every cell is a number: the frame can be handed to a numeric transform. */
  predicate AllNumeric(row: Row) {
    forall i :: 0 <= i < |row| ==> row[i].1.Num?
  }

  lemma NumericAppend(a: Row, b: Row)
    requires AllNumeric(a) && AllNumeric(b)
    ensures AllNumeric(a + b)
  {
    forall i | 0 <= i < |a + b| ensures (a + b)[i].1.Num? {
      if i >= |a| {
        assert (a + b)[i] == b[i - |a|];
      }
    }
  }

  /** The row's values in column order, the array a scikit-learn transform reads from the frame. */
  function Vector(row: Row): (v: seq<real>)
    requires AllNumeric(row)
    ensures |v| == |row|
    ensures forall i :: 0 <= i < |row| ==> row[i].1 == Num(v[i])
  {
    seq(|row|, i requires 0 <= i < |row| => row[i].1.x)
  }

  /** A DataFrame that column assignments change in place. */
  class DataFrame {
    var cells: Row

    /** Columns are unique. */
    ghost predicate Valid()
      reads this
    {
      UniqueKeys(cells)
    }

    constructor (raw: Dict<real>)
      requires UniqueKeys(raw)
      ensures Valid()
      ensures cells == FromRecord(raw)
    {
      cells := FromRecord(raw);
    }

    /** `df[name]`, or None when there is no such column. */
    function Column(name: string): Option<Value>
      reads this
    {
      Get(cells, name)
    }

    /** `df[name] = v`: overwrites an existing column in place, otherwise appends a new last column. */
    method SetItem(name: string, v: Value)
      requires Valid()
      modifies this
      ensures Valid()
      ensures cells == Set(old(cells), name, v)
    {
      cells := Set(cells, name, v);
    }
  }
}
