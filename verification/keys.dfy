/**
 * The fixed key labels and the launcher grid's cell-to-label mapping.
 * `KEY_LABELS` is built as `[f"F{i}" for i in range(13, 25)]`; the grid has
 * 2 rows of 6 columns, walked row by row with a running index.
 */
module Keys {
  import Text

  const Rows: nat := 2
  const Cols: nat := 6

  /** The twelve key labels, in order. */
  function KeyLabels(): seq<string>
  {
    seq(12, i requires 0 <= i => "F" + Text.Decimal(13 + i))
  }

  /** The labels are exactly F13 to F24, in that order. */
  lemma KeyLabelsAreF13ToF24()
    ensures KeyLabels() == ["F13", "F14", "F15", "F16", "F17", "F18", "F19", "F20", "F21", "F22", "F23", "F24"]
  {
    var ks := KeyLabels();
    var want := ["F13", "F14", "F15", "F16", "F17", "F18", "F19", "F20", "F21", "F22", "F23", "F24"];
    forall i | 0 <= i < 12 ensures ks[i] == want[i] {
      KeyLabelDigits(i);
    }
  }

  /** No label occurs twice, and none is empty (so every label is a truthy key). */
  lemma KeyLabelsDistinct()
    ensures |KeyLabels()| == 12
    ensures forall i, j :: 0 <= i < j < 12 ==> KeyLabels()[i] != KeyLabels()[j]
    ensures forall k :: k in KeyLabels() ==> k != ""
  {
    var ks := KeyLabels();
    forall i, j | 0 <= i < j < 12 ensures ks[i] != ks[j] {
      KeyLabelDigits(i);
      KeyLabelDigits(j);
      if (13 + i) / 10 == (13 + j) / 10 {
        assert ks[i][2] != ks[j][2];
      } else {
        assert ks[i][1] != ks[j][1];
      }
    }
  }

  lemma KeyLabelDigits(i: nat)
    requires i < 12
    ensures KeyLabels()[i] == "F" + [Text.DigitChar((13 + i) / 10), Text.DigitChar((13 + i) % 10)]
  {
    assert Text.Decimal((13 + i) / 10) == [Text.DigitChar((13 + i) / 10)];
  }

  /** The position of cell (r, c) in the row-major walk. */
  function CellIndex(r: nat, c: nat): nat
  {
    r * Cols + c
  }

  /** The label of the button at row `r`, column `c` of the launcher grid. */
  function CellLabel(r: nat, c: nat): string
    requires r < Rows && c < Cols
  {
    KeyLabels()[CellIndex(r, c)]
  }

  /** The row-major walk never leaves the label list, gives every cell its own label,
      and reaches every label from exactly one cell. */
  lemma GridCoversLabels()
    ensures forall r: nat, c: nat :: r < Rows && c < Cols ==> CellIndex(r, c) < |KeyLabels()|
    ensures forall r1: nat, c1: nat, r2: nat, c2: nat ::
      r1 < Rows && c1 < Cols && r2 < Rows && c2 < Cols && CellLabel(r1, c1) == CellLabel(r2, c2)
      ==> r1 == r2 && c1 == c2
    ensures forall k :: k in KeyLabels() ==> exists r: nat, c: nat :: r < Rows && c < Cols && CellLabel(r, c) == k
  {
    KeyLabelsDistinct();
    forall k | k in KeyLabels() ensures exists r: nat, c: nat :: r < Rows && c < Cols && CellLabel(r, c) == k {
      var i :| 0 <= i < 12 && KeyLabels()[i] == k;
      assert CellLabel(i / Cols, i % Cols) == k;
    }
  }
}
