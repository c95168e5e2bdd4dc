/**
 The striped order of cache lines on the device: neighbouring collision entries, which share a metadata
 page, are spread over the device.  The entries fill pages of perPage, the last page maybe only partly.
 */
module Striping {
  import opened Division

  datatype Table = Table(entries: nat, perPage: nat, pages: nat)

  /** As many pages as the entries need. */
  predicate TableOK(t: Table) {
    t.perPage > 0 && t.entries > 0 && t.pages > 0
    && Times(t.pages - 1, t.perPage) < t.entries <= Times(t.pages, t.perPage)
  }

  function Delta(t: Table): int {
    Times(t.pages, t.perPage) - t.entries
  }

  /** Position on the device of collision entry idx. */
  function Lg2Phy(t: Table, idx: nat): int
    requires TableOK(t)
  {
    var row := Rem(idx, t.perPage);
    var offset := if row > t.perPage - Delta(t) then row - (t.perPage - Delta(t)) else 0;
    Times(row, t.pages) + Quot(idx, t.perPage) - offset
  }

  function InLastPage(t: Table): nat
    requires TableOK(t)
  {
    if Rem(t.entries, t.perPage) != 0 then Rem(t.entries, t.perPage) else t.perPage
  }

  /** Collision entry at a position on the device. */
  function Phy2Lg(t: Table, line: nat): nat
    requires TableOK(t) && line < t.entries
  {
    var last := Times(InLastPage(t), t.pages);
    if line < last then Times(Rem(line, t.pages), t.perPage) + Quot(line, t.pages)
    else
      MoreThanOnePage(t, line);
      Times(Rem(line - last, t.pages - 1), t.perPage) + Quot(line - last, t.pages - 1) + InLastPage(t)
  }

  /** The number of entries in the last page is what delta leaves of a full page. */
  lemma LastPage(t: Table)
    requires TableOK(t)
    ensures t.entries == Times(t.pages - 1, t.perPage) + InLastPage(t)
    ensures 1 <= InLastPage(t) == t.perPage - Delta(t) <= t.perPage
  {
    var rest := t.entries - Times(t.pages - 1, t.perPage);
    assert Times(t.pages, t.perPage) == Times(t.pages - 1, t.perPage) + t.perPage;
    if rest < t.perPage {
      QuotRem(t.pages - 1, rest, t.perPage);
    } else {
      QuotRem(t.pages, 0, t.perPage);
    }
  }

  /** Rows that the last page lacks are one entry shorter. */
  lemma {:induction false} TimesLess(k: nat, p: nat)
    requires p > 0
    ensures Times(k, p) == Times(k, p - 1) + k
  {
    if k > 0 { TimesLess(k - 1, p); }
  }

  /** Rows and columns exchanged, the entries are counted all the same. */
  lemma {:induction false} TimesSwap(k: nat, p: nat)
    ensures Times(k, p) == Times(p, k)
  {
    if k == 0 {
      TimesZero(p);
    } else {
      TimesSwap(k - 1, p);
      TimesLess(p, k);
    }
  }

  lemma {:induction false} TimesZero(p: nat)
    ensures Times(p, 0) == 0
  {
    if p > 0 { TimesZero(p - 1); }
  }

  lemma MoreThanOnePage(t: Table, line: nat)
    requires TableOK(t) && line < t.entries && line >= Times(InLastPage(t), t.pages)
    ensures t.pages > 1
  {
    LastPage(t);
    TimesOne(InLastPage(t));
  }

  /** Row and column of a collision entry; short rows end one column earlier. */
  lemma Place(t: Table, idx: nat)
    requires TableOK(t) && idx < t.entries
    ensures idx == Times(Quot(idx, t.perPage), t.perPage) + Rem(idx, t.perPage)
    ensures Quot(idx, t.perPage) < t.pages
    ensures Rem(idx, t.perPage) >= InLastPage(t) ==> Quot(idx, t.perPage) < t.pages - 1
  {
    var q := Quot(idx, t.perPage);
    Split(idx, t.perPage);
    LastPage(t);
    TimesOrder(t.pages - 1, q, t.perPage);
  }

  lemma RowStart(t: Table, row: nat)
    requires TableOK(t) && row >= InLastPage(t)
    ensures Times(row, t.pages) - (row - InLastPage(t)) ==
            Times(InLastPage(t), t.pages) + Times(row - InLastPage(t), t.pages - 1)
  {
    var l := InLastPage(t);
    TimesSum(l, row - l, t.pages);
    TimesLess(row - l, t.pages);
  }

  /** All rows together hold all entries. */
  lemma AllRows(t: Table)
    requires TableOK(t)
    ensures t.entries == Times(InLastPage(t), t.pages) + Times(t.perPage - InLastPage(t), t.pages - 1)
  {
    LastPage(t);
    RowStart(t, t.perPage);
    TimesSwap(t.perPage, t.pages);
  }

  /** Position and back. */
  lemma ThereAndBack(t: Table, idx: nat)
    requires TableOK(t) && idx < t.entries
    ensures 0 <= Lg2Phy(t, idx) < t.entries
    ensures Phy2Lg(t, Lg2Phy(t, idx)) == idx
  {
    LastPage(t);
    Place(t, idx);
    AllRows(t);
    if Rem(idx, t.perPage) < InLastPage(t) {
      FullRow(t, Rem(idx, t.perPage), Quot(idx, t.perPage));
    } else {
      ShortRow(t, Rem(idx, t.perPage), Quot(idx, t.perPage));
    }
  }

  lemma FullRow(t: Table, row: nat, col: nat)
    requires TableOK(t) && row < InLastPage(t) && col < t.pages
    ensures var p := Times(row, t.pages) + col;
      p < Times(InLastPage(t), t.pages) && Quot(p, t.pages) == row && Rem(p, t.pages) == col
  {
    TimesMono(row, InLastPage(t), t.pages);
    QuotRem(row, col, t.pages);
  }

  lemma ShortRow(t: Table, row: nat, col: nat)
    requires TableOK(t) && InLastPage(t) <= row < t.perPage && col < t.pages - 1
    ensures var p := Times(row, t.pages) + col - (row - InLastPage(t)); var last := Times(InLastPage(t), t.pages);
      && last <= p < last + Times(t.perPage - InLastPage(t), t.pages - 1)
      && Quot(p - last, t.pages - 1) == row - InLastPage(t) && Rem(p - last, t.pages - 1) == col
  {
    var l := InLastPage(t);
    RowStart(t, row);
    TimesMono(row - l, t.perPage - l, t.pages - 1);
    QuotRem(row - l, col, t.pages - 1);
  }

  /** Entry and back. */
  lemma BackAndThere(t: Table, line: nat)
    requires TableOK(t) && line < t.entries
    ensures Phy2Lg(t, line) < t.entries
    ensures Lg2Phy(t, Phy2Lg(t, line)) == line
  {
    LastPage(t);
    AllRows(t);
    if line < Times(InLastPage(t), t.pages) {
      FromFullRow(t, line);
    } else {
      MoreThanOnePage(t, line);
      FromShortRow(t, line);
    }
  }

  lemma FromFullRow(t: Table, line: nat)
    requires TableOK(t) && line < t.entries && line < Times(InLastPage(t), t.pages)
    ensures Phy2Lg(t, line) < t.entries && Lg2Phy(t, Phy2Lg(t, line)) == line
  {
    LastPage(t);
    Split(line, t.pages);
    var row, col := Quot(line, t.pages), Rem(line, t.pages);
    TimesOrder(InLastPage(t), row, t.pages);
    QuotRem(col, row, t.perPage);
    InTable(t, row, col);
  }

  lemma FromShortRow(t: Table, line: nat)
    requires TableOK(t) && line < t.entries && line >= Times(InLastPage(t), t.pages) && t.pages > 1
    requires t.entries == Times(InLastPage(t), t.pages) + Times(t.perPage - InLastPage(t), t.pages - 1)
    ensures Phy2Lg(t, line) < t.entries && Lg2Phy(t, Phy2Lg(t, line)) == line
  {
    LastPage(t);
    var l := InLastPage(t);
    var y := line - Times(l, t.pages);
    Split(y, t.pages - 1);
    var row, col := Quot(y, t.pages - 1), Rem(y, t.pages - 1);
    TimesOrder(t.perPage - l, row, t.pages - 1);
    assert row + l < t.perPage;
    QuotRem(col, row + l, t.perPage);
    InTable(t, row + l, col);
    RowStart(t, row + l);
  }

  lemma InTable(t: Table, row: nat, col: nat)
    requires TableOK(t) && row < t.perPage && col < (if row < InLastPage(t) then t.pages else t.pages - 1)
    ensures Times(col, t.perPage) + row < t.entries
  {
    LastPage(t);
    if col < t.pages - 1 { TimesMono(col, t.pages - 1, t.perPage); }
  }

  /** The functions are those of the source: quotients, remainders and products. */
  lemma IsSource(t: Table, idx: nat)
    requires TableOK(t) && idx < t.entries
    ensures var delta := t.perPage * t.pages - t.entries; var row := idx % t.perPage;
      Lg2Phy(t, idx) == row * t.pages + idx / t.perPage - if row > t.perPage - delta then row - (t.perPage - delta) else 0
    ensures var l := if t.entries % t.perPage != 0 then t.entries % t.perPage else t.perPage;
      idx < l * t.pages ==> Phy2Lg(t, idx) == (idx % t.pages) * t.perPage + idx / t.pages
  {
    IsProduct(t.pages, t.perPage);
    IsQuotRem(idx, t.perPage);
    IsProduct(Rem(idx, t.perPage), t.pages);
    IsQuotRem(t.entries, t.perPage);
    IsProduct(InLastPage(t), t.pages);
    IsQuotRem(idx, t.pages);
    IsProduct(Rem(idx, t.pages), t.perPage);
    Commutes(t.pages, t.perPage);
  }

  lemma IsSourceShort(t: Table, idx: nat)
    requires TableOK(t) && idx < t.entries
    ensures var l := if t.entries % t.perPage != 0 then t.entries % t.perPage else t.perPage;
      idx >= l * t.pages ==>
        t.pages > 1 && Phy2Lg(t, idx) == ((idx - l * t.pages) % (t.pages - 1)) * t.perPage + (idx - l * t.pages) / (t.pages - 1) + l
  {
    IsQuotRem(t.entries, t.perPage);
    IsProduct(InLastPage(t), t.pages);
    var last := Times(InLastPage(t), t.pages);
    if idx >= last {
      MoreThanOnePage(t, idx);
      IsQuotRem(idx - last, t.pages - 1);
      IsProduct(Rem(idx - last, t.pages - 1), t.perPage);
    }
  }

  lemma Commutes(x: nat, y: nat)
    ensures x * y == y * x
  {
  }
}
