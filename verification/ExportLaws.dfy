/** The order in which an exported file lists its records. */
module ExportLaws {
  import opened Common
  import opened SieExport
  import opened SieParser
  import opened SieRoundTrip
  import opened SieText

  /** By date, then series, then number. */
  function DateOrder(collate: Collation): (Voucher, Voucher) -> int {
    (v: Voucher, w: Voucher) =>
      if collate(v.date, w.date) != 0 then collate(v.date, w.date)
      else if collate(v.series, w.series) != 0 then collate(v.series, w.series)
      else Value(v.number) - Value(w.number)
  }

  lemma DateOrders(collate: Collation)
    requires TextOrder(collate)
    ensures Orders(DateOrder(collate)) && Respects(ByDate(collate), DateOrder(collate))
  {
    hide Value, TextOrder;
    forall x, y ensures DateOrder(collate)(x, y) <= 0 || DateOrder(collate)(y, x) <= 0 {
      BothWays(collate, x.date, y.date);
      BothWays(collate, x.series, y.series);
    }
    forall x, y, z | DateOrder(collate)(x, y) <= 0 && DateOrder(collate)(y, z) <= 0
      ensures DateOrder(collate)(x, z) <= 0
    {
      Through(collate, x.date, y.date, z.date);
      Through(collate, x.series, y.series, z.series);
    }
    forall x, y
      ensures if ByDate(collate)(x, y) <= 0 then DateOrder(collate)(x, y) <= 0 else DateOrder(collate)(y, x) <= 0
    {
      BothWays(collate, x.date, y.date);
      BothWays(collate, x.series, y.series);
    }
  }

  lemma BothWays(collate: Collation, x: string, y: string)
    requires TextOrder(collate)
    ensures collate(x, y) < 0 <==> collate(y, x) > 0
    ensures collate(x, y) > 0 <==> collate(y, x) < 0
  {
  }

  lemma Through(collate: Collation, x: string, y: string, z: string)
    requires TextOrder(collate)
    ensures collate(x, y) <= 0 && collate(y, z) <= 0 ==> collate(x, z) <= 0
    ensures collate(x, y) <= 0 && collate(y, z) <= 0 && collate(x, z) == 0 ==> collate(x, y) == 0 && collate(y, z) == 0
  {
    OrderedThrough(collate, x, y, z);
    OrderedThrough(collate, y, z, x);
    OrderedThrough(collate, z, x, y);
  }

  /** Comparing names of things orders the things. */
  lemma NameOrders<T(!new)>(collate: Collation, name: T -> string, cmp: (T, T) -> int)
    requires TextOrder(collate) && forall x, y :: cmp(x, y) == collate(name(x), name(y))
    ensures Orders(cmp)
  {
    forall x, y ensures cmp(x, y) <= 0 || cmp(y, x) <= 0 { OrderedThrough(collate, name(x), name(y), name(x)); }
    forall x, y, z | cmp(x, y) <= 0 && cmp(y, z) <= 0 ensures cmp(x, z) <= 0 {
      OrderedThrough(collate, name(x), name(y), name(z));
    }
  }

  lemma NamesOrder(collate: Collation)
    requires TextOrder(collate)
    ensures Orders(ByNumber(collate)) && Orders(ByAccount(collate)) && Orders(ByIdentity(collate))
  {
    hide TextOrder, Orders;
    NameOrders(collate, (a: Account) => a.number, ByNumber(collate));
    NameOrders(collate, (b: ExportBalance) => b.account, ByAccount(collate));
    NameOrders(collate, (o: SieObject) => o.dimension + "/" + o.id, ByIdentity(collate));
  }

  /** Accounts and balances come by number, objects by dimension and identifier, and vouchers by date, series and
      number. */
  lemma FileIsInOrder(data: ExportData, collate: Collation, i: nat, j: nat)
    requires WellFormed(data) && Export(data, collate).Ok? && TextOrder(collate) && i < j
    ensures var d := Parse(Export(data, collate).value);
            && (j < |d.accounts| ==> collate(d.accounts[i].number, d.accounts[j].number) <= 0)
            && (j < |d.balances| ==> collate(d.balances[i].account, d.balances[j].account) <= 0)
            && (j < |d.objects| ==>
               collate(d.objects[i].dimension + "/" + d.objects[i].id, d.objects[j].dimension + "/" + d.objects[j].id)
               <= 0)
    ensures var d, vs := Parse(Export(data, collate).value), Sort(data.vouchers, ByDate(collate));
            && |d.vouchers| == |vs|
            && (j < |vs| ==>
               && d.vouchers[i] == CanonicalVoucher(collate)(vs[i]) && d.vouchers[j] == CanonicalVoucher(collate)(vs[j])
               && (collate(vs[i].date, vs[j].date) < 0
                   || (collate(vs[i].date, vs[j].date) == 0
                       && (collate(vs[i].series, vs[j].series) < 0
                           || (collate(vs[i].series, vs[j].series) == 0
                               && Value(vs[i].number) <= Value(vs[j].number))))))
  {
    hide *;
    ReadsBackAsCanonical(data, collate);
    NamesAreSorted(data, collate, i, j);
    VouchersAreSorted(data, collate, i, j);
  }

  lemma NamesAreSorted(data: ExportData, collate: Collation, i: nat, j: nat)
    requires TextOrder(collate) && i < j
    ensures var d := Canonical(data, collate);
            && (j < |d.accounts| ==> collate(d.accounts[i].number, d.accounts[j].number) <= 0)
            && (j < |d.balances| ==> collate(d.balances[i].account, d.balances[j].account) <= 0)
            && (j < |d.objects| ==>
               collate(d.objects[i].dimension + "/" + d.objects[i].id, d.objects[j].dimension + "/" + d.objects[j].id)
               <= 0)
  {
    hide Sort, TextOrder, Orders, CanonicalVoucher, CanonicalOpenings, CanonicalYear, CanonicalMoney, IsResultKind;
    NamesOrder(collate);
    SortSorts(data.accounts, ByNumber(collate));
    SortSorts(data.balances, ByAccount(collate));
    SortSorts(data.objects, ByIdentity(collate));
  }

  lemma VouchersAreSorted(data: ExportData, collate: Collation, i: nat, j: nat)
    requires TextOrder(collate) && i < j
    ensures var d, vs := Canonical(data, collate), Sort(data.vouchers, ByDate(collate));
            && |d.vouchers| == |vs|
            && (j < |vs| ==>
               && d.vouchers[i] == CanonicalVoucher(collate)(vs[i]) && d.vouchers[j] == CanonicalVoucher(collate)(vs[j])
               && (collate(vs[i].date, vs[j].date) < 0
                   || (collate(vs[i].date, vs[j].date) == 0
                       && (collate(vs[i].series, vs[j].series) < 0
                           || (collate(vs[i].series, vs[j].series) == 0
                               && Value(vs[i].number) <= Value(vs[j].number))))))
  {
    hide Sort, TextOrder, Orders, Respects, CanonicalVoucher, CanonicalOpenings, CanonicalYear, CanonicalBalances,
         Value;
    DateOrders(collate);
    SortSortsBy(data.vouchers, ByDate(collate), DateOrder(collate));
    var vs := Sort(data.vouchers, ByDate(collate));
    if j < |vs| { assert DateOrder(collate)(vs[i], vs[j]) <= 0; }
  }
}
