/** The inline keyboard attached to every profile view (bot_telegram.py,
    lines 73-101): a constant table of rows of (text, callback id). */
module Keyboard {

  /** One InlineKeyboardButton: the text shown and the callback data sent back. */
  datatype Button = Button(text: string, callbackData: string)

  /** Rows of buttons, top to bottom. */
  type Layout = seq<seq<Button>>

  const RefreshId: string := "refresh_menu"

  /** The fixed menu, in display order. */
  const MainKeyboard: Layout := [
    [Button("1. Login/Ganti Akun", "menu_1")],
    [Button("2. Lihat Paket Saya", "menu_2")],
    [Button("3. Beli Paket \U{1F525} HOT \U{1F525}", "menu_3")],
    [Button("4. Beli Paket \U{1F525} HOT-2 \U{1F525}", "menu_4")],
    [Button("5. Option Code", "menu_5"), Button("6. Family Code", "menu_6")],
    [Button("7. Loop Family Code", "menu_7")],
    [Button("8. Riwayat Transaksi", "menu_8")],
    [Button("9. Family Plan/Akrab", "menu_9")],
    [Button("10. Circle", "menu_10")],
    [Button("11. Segments", "menu_11"), Button("12. Fam List", "menu_12")],
    [Button("13. Store Pkg", "menu_13"), Button("14. Redeem", "menu_14")],
    [Button("R. Register", "menu_R"), Button("N. Notifikasi", "menu_N")],
    [Button("V. Validate MSISDN", "menu_V")],
    [Button("00. Bookmark", "menu_00")],
    [Button("\U{1F504} Refresh Data", RefreshId)]
  ]

  /** The buttons of rows k.. of a layout, row after row. */
  function ButtonsFrom(rows: Layout, k: nat): seq<Button>
    requires k <= |rows|
    decreases |rows| - k
  {
    if k == |rows| then [] else rows[k] + ButtonsFrom(rows, k + 1)
  }

  /** The callback ids of one row, left to right. */
  function RowIds(row: seq<Button>): seq<string>
  {
    seq(|row|, i requires 0 <= i < |row| => row[i].callbackData)
  }

  /** Whether some button of the menu sends `id`. */
  predicate InMenu(id: string)
  {
    exists r, c :: 0 <= r < |MainKeyboard| && 0 <= c < |MainKeyboard[r]| &&
      MainKeyboard[r][c].callbackData == id
  }

  // ---------------------------------------------------------------------------
  // Lemmas

  /** 15 rows, each one or two buttons wide. */
  lemma RowShape()
    ensures |MainKeyboard| == 15
    ensures forall r :: 0 <= r < |MainKeyboard| ==> 1 <= |MainKeyboard[r]| <= 2
  {
  }

  /** 19 buttons in all, tallied row by row from the bottom. */
  lemma {:induction false} ButtonCount()
    ensures |ButtonsFrom(MainKeyboard, 0)| == 19
  {
    var kb := MainKeyboard;
    assert |ButtonsFrom(kb, 15)| == 0;
    assert |ButtonsFrom(kb, 14)| == 1;
    assert |ButtonsFrom(kb, 13)| == 2;
    assert |ButtonsFrom(kb, 12)| == 3;
    assert |ButtonsFrom(kb, 11)| == 5;
    assert |ButtonsFrom(kb, 10)| == 7;
    assert |ButtonsFrom(kb, 9)| == 9;
    assert |ButtonsFrom(kb, 8)| == 10;
    assert |ButtonsFrom(kb, 7)| == 11;
    assert |ButtonsFrom(kb, 6)| == 12;
    assert |ButtonsFrom(kb, 5)| == 13;
    assert |ButtonsFrom(kb, 4)| == 15;
    assert |ButtonsFrom(kb, 3)| == 16;
    assert |ButtonsFrom(kb, 2)| == 17;
    assert |ButtonsFrom(kb, 1)| == 18;
  }

  /** The callback ids are pairwise distinct: two different positions in the
      table never send the same id. */
  lemma CallbackIdsDistinct()
    ensures forall r1, c1, r2, c2 ::
      0 <= r1 < |MainKeyboard| && 0 <= c1 < |MainKeyboard[r1]| &&
      0 <= r2 < |MainKeyboard| && 0 <= c2 < |MainKeyboard[r2]| &&
      (r1, c1) != (r2, c2) ==>
        MainKeyboard[r1][c1].callbackData != MainKeyboard[r2][c2].callbackData
  {
  }

  /** The only two-button rows are {menu_5, menu_6}, {menu_11, menu_12},
      {menu_13, menu_14} and {menu_R, menu_N}. */
  lemma TwoButtonRows()
    ensures forall r :: 0 <= r < |MainKeyboard| ==> (|MainKeyboard[r]| == 2 <==> r in {4, 9, 10, 11})
    ensures RowIds(MainKeyboard[4]) == ["menu_5", "menu_6"]
    ensures RowIds(MainKeyboard[9]) == ["menu_11", "menu_12"]
    ensures RowIds(MainKeyboard[10]) == ["menu_13", "menu_14"]
    ensures RowIds(MainKeyboard[11]) == ["menu_R", "menu_N"]
  {
  }

  /** The last row is the single refresh button, and it is the only one. */
  lemma LastRowIsRefresh()
    ensures MainKeyboard[|MainKeyboard| - 1] == [Button("\U{1F504} Refresh Data", RefreshId)]
    ensures forall r, c :: 0 <= r < |MainKeyboard| - 1 && 0 <= c < |MainKeyboard[r]| ==>
      MainKeyboard[r][c].callbackData != RefreshId
  {
  }
}
