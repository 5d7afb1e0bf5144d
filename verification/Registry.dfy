/** Voucher series and accounts: creation, and the updates that are refused once bookkeeping depends on them. */
module Registry {
  import opened Common
  import opened LedgerModel
  import opened SieLines

  predicate HasSeries(l: Ledger, year: nat, code: string)
  {
    exists s :: s in l.series && s.year == year && s.code == code
  }

  predicate HasAccount(l: Ledger, number: string) { exists a :: a in l.accounts && a.number == number }

  function Or<T>(o: Option<T>, otherwise: T): T { if o.Some? then o.value else otherwise }

  // ---------------------------------------------------------------- voucher series

  function CreateSeries(l: Ledger, year: nat, code: string, name: string): Outcome {
    var guard := RequireOpen(l, year, None);
    if Trim(name) == "" then Err(BlankText)
    else if guard.Some? then Err(guard.value)
    else if HasSeries(l, year, code) then Err(DuplicateSeries)
    else Ok(l.(series := l.series + [Series(year, code, 1, true)]))
  }

  /** The code of a series cannot change once a voucher has been posted in it. */
  function UpdateSeries(l: Ledger, id: nat, code: Option<string>, name: Option<string>, active: Option<bool>): Outcome {
    if name.Some? && Trim(name.value) == "" then Err(BlankText)
    else if id >= |l.series| then Err(NotFound)
    else
      var s := l.series[id];
      var guard := RequireOpen(l, s.year, None);
      if guard.Some? then Err(guard.value)
      else if code.Some? && code.value != s.code && SeriesPosted(l, id) then Err(SeriesInUse)
      else if code.Some? && code.value != s.code && HasSeries(l, s.year, code.value) then Err(DuplicateSeries)
      else Ok(WithSeries(l, id, s.(code := Or(code, s.code), active := Or(active, s.active))))
  }

  method AddSeries(db: Store, year: nat, code: string, name: string) returns (error: Option<Error>)
    modifies db
    ensures CreateSeries(old(db.State()), year, code, name) == if error.None? then Ok(db.State()) else Err(error.value)
    ensures error.Some? ==> db.State() == old(db.State())
  {
    if Trim(name) == "" { return Some(BlankText); }
    var guard := CheckOpen(db, year, None);
    if guard.Some? { return guard; }
    if exists s :: s in db.series && s.year == year && s.code == code { return Some(DuplicateSeries); }
    db.series := db.series + [Series(year, code, 1, true)];
    return None;
  }

  method ChangeSeries(db: Store, id: nat, code: Option<string>, name: Option<string>, active: Option<bool>)
    returns (error: Option<Error>)
    modifies db
    ensures UpdateSeries(old(db.State()), id, code, name, active)
            == if error.None? then Ok(db.State()) else Err(error.value)
    ensures error.Some? ==> db.State() == old(db.State())
  {
    if name.Some? && Trim(name.value) == "" { return Some(BlankText); }
    if id >= |db.series| { return Some(NotFound); }
    var current := db.series[id];
    var guard := CheckOpen(db, current.year, None);
    if guard.Some? { return guard; }
    if code.Some? && code.value != current.code && exists e :: e in db.entries && e.series == id && e.posted {
      return Some(SeriesInUse);
    }
    if code.Some? && code.value != current.code && HasSeries(db.State(), current.year, code.value) {
      return Some(DuplicateSeries);
    }
    var changed := current;
    if code.Some? { changed := changed.(code := code.value); }
    if active.Some? { changed := changed.(active := active.value); }
    db.series := db.series[id := changed];
    return None;
  }

  // ---------------------------------------------------------------- accounts

  function CreateAccount(l: Ledger, env: Registers, number: string, name: string, kind: Kind, active: bool,
        vat: Option<string>): Outcome {
    var a := Account(number, name, kind, active, false, vat);
    if active && !env.eligible(a) then Err(NotEligible)
    else if vat.Some? && vat.value !in env.vat then Err(CodeUnavailable)
    else if HasAccount(l, number) then Err(DuplicateAccount)
    else Ok(l.(accounts := l.accounts + [a]))
  }

  /** Requested changes; an absent field stays, and the VAT code may be cleared. */
  datatype AccountChange = AccountChange(
    number: Option<string>, name: Option<string>, kind: Option<Kind>, active: Option<bool>, vat: Option<Option<string>>)

  predicate Reclassifies(a: Account, c: AccountChange) {
    (c.number.Some? && c.number.value != a.number) || (c.kind.Some? && c.kind.value != a.kind)
  }

  function Changed(a: Account, c: AccountChange): Account {
    Account(Or(c.number, a.number), Or(c.name, a.name), Or(c.kind, a.kind), Or(c.active, a.active), a.catalog,
      Or(c.vat, a.vat))
  }

  predicate Renumbers(a: Account, c: AccountChange) { c.number.Some? && c.number.value != a.number }

  /** Whether the change needs the account to be bookable: it is activated, or stays active under a new number. */
  predicate NeedsEligible(a: Account, c: AccountChange)
  {
    Or(c.active, a.active) && (c.active == Some(true) || Renumbers(a, c))
  }

  function AccountRefusal(l: Ledger, env: Registers, id: nat, c: AccountChange): Option<Error>
    requires id < |l.accounts|
  {
    var a := l.accounts[id];
    if c.vat.Some? && c.vat.value.Some? && c.vat.value.value !in env.vat then Some(CodeUnavailable)
    else if a.catalog && Reclassifies(a, c) then Some(CatalogIdentity)
    else if NeedsEligible(a, c) && !env.eligible(a.(number := Or(c.number, a.number))) then Some(NotEligible)
    else if Or(c.name, a.name) != a.name && id in env.unlabelled then Some(LegacyLabelInUse)
    else if Reclassifies(a, c) && AccountUsed(l, id) then Some(ClassificationInUse)
    else if Renumbers(a, c) && HasAccount(l, c.number.value) then Some(DuplicateAccount)
    else None
  }

  /** Number and classification of an account are frozen by its first opening balance or posted line. */
  function UpdateAccount(l: Ledger, env: Registers, id: nat, c: AccountChange): Outcome {
    if id >= |l.accounts| then Err(NotFound)
    else
      var refusal := AccountRefusal(l, env, id, c);
      if refusal.Some? then Err(refusal.value) else Ok(WithAccount(l, id, Changed(l.accounts[id], c)))
  }

  method AddAccount(db: Store, env: Registers, number: string, name: string, kind: Kind, active: bool,
        vat: Option<string>)
    returns (error: Option<Error>)
    modifies db
    ensures CreateAccount(old(db.State()), env, number, name, kind, active, vat)
            == if error.None? then Ok(db.State()) else Err(error.value)
    ensures error.Some? ==> db.State() == old(db.State())
  {
    var a := Account(number, name, kind, active, false, vat);
    if active && !env.eligible(a) { return Some(NotEligible); }
    if vat.Some? && vat.value !in env.vat { return Some(CodeUnavailable); }
    if HasAccount(db.State(), number) { return Some(DuplicateAccount); }
    db.accounts := db.accounts + [a];
    return None;
  }

  method CheckAccount(db: Store, env: Registers, id: nat, c: AccountChange) returns (error: Option<Error>)
    requires id < |db.accounts|
    ensures error == AccountRefusal(db.State(), env, id, c)
  {
    hide AccountUsed, HasAccount, Reclassifies, NeedsEligible;
    var before := db.accounts[id];
    if c.vat.Some? && c.vat.value.Some? && c.vat.value.value !in env.vat { return Some(CodeUnavailable); }
    if before.catalog && Reclassifies(before, c) { return Some(CatalogIdentity); }
    if NeedsEligible(before, c) && !env.eligible(before.(number := Or(c.number, before.number))) {
      return Some(NotEligible);
    }
    if Or(c.name, before.name) != before.name && id in env.unlabelled { return Some(LegacyLabelInUse); }
    if Reclassifies(before, c) && AccountUsed(db.State(), id) { return Some(ClassificationInUse); }
    if Renumbers(before, c) && HasAccount(db.State(), c.number.value) { return Some(DuplicateAccount); }
    return None;
  }

  method ChangeAccount(db: Store, env: Registers, id: nat, c: AccountChange) returns (error: Option<Error>)
    modifies db
    ensures UpdateAccount(old(db.State()), env, id, c) == if error.None? then Ok(db.State()) else Err(error.value)
    ensures error.Some? ==> db.State() == old(db.State())
  {
    hide AccountRefusal;
    if id >= |db.accounts| { return Some(NotFound); }
    error := CheckAccount(db, env, id, c);
    if error.Some? { return; }
    var a := db.accounts[id];
    if c.number.Some? { a := a.(number := c.number.value); }
    if c.name.Some? { a := a.(name := c.name.value); }
    if c.kind.Some? { a := a.(kind := c.kind.value); }
    if c.active.Some? { a := a.(active := c.active.value); }
    if c.vat.Some? { a := a.(vat := c.vat.value); }
    db.accounts := db.accounts[id := a];
  }
}
