/** The customer registry (the `customers` array, src/index.js:8) and the request handlers
    that read and change it, with the cpf lookup the middleware performs
    (src/index.js:11-24). The HTTP layer is gone: each handler takes the header and body
    values it reads as parameters and returns the outcome its response reports. */
module Accounts {
  import opened Wrappers
  import opened Ledger

  /** A registered customer. `id` comes from uuidv4 (src/index.js:50), `cpf` is the
      national tax id by which every handler finds the customer. */
  datatype Customer = Customer(id: string, name: string, cpf: string, statement: seq<Operation>)

  /** The failures the handlers answer with status 400. */
  datatype Error = CustomerNotFound | CustomerAlreadyExists | InsufficientFunds

  /** `customers.some(c => c.cpf === cpf)` (src/index.js:41-43). */
  predicate CpfTaken(cs: seq<Customer>, cpf: string) {
    exists i :: 0 <= i < |cs| && cs[i].cpf == cpf
  }

  /** i is the position of the first customer with that cpf. */
  ghost predicate IsFirstWithCpf(cs: seq<Customer>, cpf: string, i: nat) {
    i < |cs| && cs[i].cpf == cpf && forall j :: 0 <= j < i ==> cs[j].cpf != cpf
  }

  /** No two customers share a cpf: what the duplicate check on account creation keeps. */
  ghost predicate UniqueCpfs(cs: seq<Customer>) {
    forall i, j :: 0 <= i < j < |cs| ==> cs[i].cpf != cs[j].cpf
  }

  /** Every customer's balance is non-negative. */
  ghost predicate Solvent(cs: seq<Customer>) {
    forall i :: 0 <= i < |cs| ==> Balance(cs[i].statement) >= 0
  }

  /** `customers.find(c => c.cpf === cpf)` (src/index.js:14), giving the position of the
      customer it finds: none exactly when no customer has the cpf, otherwise the first. */
  function FindIndex(cs: seq<Customer>, cpf: string): (r: Option<nat>)
    ensures r.None? <==> !CpfTaken(cs, cpf)
    ensures r.Some? ==> IsFirstWithCpf(cs, cpf, r.value)
  {
    if cs == [] then None
    else if cs[0].cpf == cpf then Some(0)
    else
      var rest := FindIndex(cs[1..], cpf);
      assert forall j :: 1 <= j < |cs| ==> cs[j] == cs[1..][j - 1];
      if rest.None? then None else Some(rest.value + 1)
  }

  /** With unique cpfs the customer found is the only one with that cpf. */
  lemma FoundIsOnlyMatch(cs: seq<Customer>, cpf: string, j: nat)
    requires UniqueCpfs(cs)
    requires j < |cs| && cs[j].cpf == cpf
    ensures FindIndex(cs, cpf) == Some(j)
  {
  }

  /** Replacing one customer by one whose balance is non-negative keeps the registry solvent. */
  lemma SolventUpdate(cs: seq<Customer>, k: nat, c: Customer)
    requires k < |cs| && Solvent(cs) && Balance(c.statement) >= 0
    ensures Solvent(cs[k := c])
  {
  }

  /** Replacing one customer by one with the same cpf keeps the cpfs unique. */
  lemma SameCpfUpdate(cs: seq<Customer>, k: nat, c: Customer)
    requires k < |cs| && UniqueCpfs(cs) && c.cpf == cs[k].cpf
    ensures UniqueCpfs(cs[k := c])
  {
  }

  /** `splice(k, 1)` for a numeric start k: the customer at k is gone, those before it stay
      where they were and those after it move down by one. */
  function RemoveAt(cs: seq<Customer>, k: nat): (r: seq<Customer>)
    requires k < |cs|
    ensures |r| == |cs| - 1
    ensures forall j :: 0 <= j < k ==> r[j] == cs[j]
    ensures forall j :: k <= j < |r| ==> r[j] == cs[j + 1]
  {
    cs[..k] + cs[k + 1..]
  }

  /** Removing a customer keeps the other cpfs unique, and with unique cpfs the removed
      customer's cpf is no longer registered. */
  lemma RemoveAtClearsCpf(cs: seq<Customer>, k: nat)
    requires k < |cs| && UniqueCpfs(cs)
    ensures UniqueCpfs(RemoveAt(cs, k))
    ensures !CpfTaken(RemoveAt(cs, k), cs[k].cpf)
  {
  }

  /** `Array.prototype.splice` converts its start argument to an integer; the delete handler
      passes the customer record itself (src/index.js:77), which converts to NaN and then
      to 0. */
  const SpliceStartOfRecord: nat := 0

  /** The process-wide registry of customers. */
  class Registry {
    var customers: seq<Customer>

    /** The registry invariant: cpfs are unique. */
    ghost predicate Valid()
      reads this
    {
      UniqueCpfs(customers)
    }

    /** The registry starts empty (src/index.js:8). */
    constructor ()
      ensures Valid() && customers == []
    {
      customers := [];
    }

    /** POST /account (src/index.js:38-57): fails when the cpf is taken, otherwise appends a
        new customer with an empty statement. `id` is the value uuidv4 supplies. */
    method Create(id: string, name: string, cpf: string) returns (r: Outcome<Error>)
      requires Valid()
      modifies this
      ensures Valid()
      ensures r.Fail? <==> CpfTaken(old(customers), cpf)
      ensures r.Fail? ==> r.error == CustomerAlreadyExists && customers == old(customers)
      ensures r.Pass? ==> customers == old(customers) + [Customer(id, name, cpf, [])]
      ensures Solvent(old(customers)) ==> Solvent(customers)
    {
      if CpfTaken(customers, cpf) {
        return Fail(CustomerAlreadyExists);
      }
      customers := customers + [Customer(id, name, cpf, [])];
      r := Pass;
      assert Balance([]) == 0;
    }

    /** GET /account (src/index.js:59-63): the customer the cpf header names. */
    method Account(cpf: string) returns (r: Result<Customer, Error>)
      ensures r.Err? <==> !CpfTaken(customers, cpf)
      ensures r.Err? ==> r.error == CustomerNotFound
      ensures r.Ok? ==> exists i: nat :: IsFirstWithCpf(customers, cpf, i) && r.value == customers[i]
    {
      var found := FindIndex(customers, cpf);
      if found.None? {
        return Err(CustomerNotFound);
      }
      r := Ok(customers[found.value]);
    }

    /** PUT /account (src/index.js:65-72): renames the customer in place; nothing else
        changes, in that customer or any other. */
    method Rename(cpf: string, name: string) returns (r: Outcome<Error>)
      requires Valid()
      modifies this
      ensures Valid()
      ensures match FindIndex(old(customers), cpf)
        case None => r == Fail(CustomerNotFound) && customers == old(customers)
        case Some(i) =>
          && r == Pass
          && customers == old(customers)[i := old(customers)[i].(name := name)]
      ensures Solvent(old(customers)) ==> Solvent(customers)
    {
      var found := FindIndex(customers, cpf);
      if found.None? {
        return Fail(CustomerNotFound);
      }
      var i := found.value;
      SameCpfUpdate(customers, i, customers[i].(name := name));
      customers := customers[i := customers[i].(name := name)];
      r := Pass;
    }

    /** DELETE /account (src/index.js:74-83) as written: after the lookup succeeds it
        removes the FIRST customer of the registry, not the one it looked up, because the
        record used as splice's start index converts to 0. */
    method Delete(cpf: string) returns (r: Outcome<Error>)
      requires Valid()
      modifies this
      ensures Valid()
      ensures r.Fail? <==> !CpfTaken(old(customers), cpf)
      ensures r.Fail? ==> r.error == CustomerNotFound && customers == old(customers)
      ensures r.Pass? ==> customers == old(customers)[1..]
      ensures Solvent(old(customers)) ==> Solvent(customers)
    {
      var found := FindIndex(customers, cpf);
      if found.None? {
        return Fail(CustomerNotFound);
      }
      RemoveAtClearsCpf(customers, SpliceStartOfRecord);
      customers := RemoveAt(customers, SpliceStartOfRecord);
      r := Pass;
    }

    /** DELETE /account as evidently intended: removes the customer it looked up, whose cpf
        is then no longer registered; the others keep their order. */
    method DeleteByCpf(cpf: string) returns (r: Outcome<Error>)
      requires Valid()
      modifies this
      ensures Valid()
      ensures match FindIndex(old(customers), cpf)
        case None => r == Fail(CustomerNotFound) && customers == old(customers)
        case Some(i) =>
          && r == Pass
          && customers == old(customers)[..i] + old(customers)[i + 1..]
      ensures !CpfTaken(customers, cpf)
      ensures Solvent(old(customers)) ==> Solvent(customers)
    {
      var found := FindIndex(customers, cpf);
      if found.None? {
        return Fail(CustomerNotFound);
      }
      RemoveAtClearsCpf(customers, found.value);
      customers := RemoveAt(customers, found.value);
      r := Pass;
    }

    /** GET /statement (src/index.js:85-89): the customer's whole statement. */
    method Statement(cpf: string) returns (r: Result<seq<Operation>, Error>)
      ensures r.Err? <==> !CpfTaken(customers, cpf)
      ensures r.Err? ==> r.error == CustomerNotFound
      ensures r.Ok? ==> exists i: nat :: IsFirstWithCpf(customers, cpf, i) && r.value == customers[i].statement
    {
      var found := FindIndex(customers, cpf);
      if found.None? {
        return Err(CustomerNotFound);
      }
      r := Ok(customers[found.value].statement);
    }

    /** GET /statement/date (src/index.js:91-102): the customer's operations on the queried
        day, `date` being None when the query does not parse as a date. */
    method StatementByDate(cpf: string, date: Option<int>) returns (r: Result<seq<Operation>, Error>)
      ensures r.Err? <==> !CpfTaken(customers, cpf)
      ensures r.Err? ==> r.error == CustomerNotFound
      ensures r.Ok? ==> exists i: nat :: IsFirstWithCpf(customers, cpf, i) && r.value == OnDate(customers[i].statement, date)
      ensures r.Ok? && date.None? ==> r.value == []
    {
      var found := FindIndex(customers, cpf);
      if found.None? {
        return Err(CustomerNotFound);
      }
      r := Ok(OnDate(customers[found.value].statement, date));
      OnDateAllOrNothing(customers[found.value].statement, date);
    }

    /** POST /deposit (src/index.js:104-118): appends one credit, stamped `now`, to the end of
        the customer's statement; nothing else changes. The amount is not validated. */
    method Deposit(cpf: string, description: Option<string>, amount: int, now: Instant) returns (r: Outcome<Error>)
      requires Valid()
      modifies this
      ensures Valid()
      ensures match FindIndex(old(customers), cpf)
        case None => r == Fail(CustomerNotFound) && customers == old(customers)
        case Some(i) =>
          && r == Pass
          && customers == old(customers)[i := old(customers)[i].(statement := old(customers)[i].statement + [CreditOp(amount, now, description)])]
          && Balance(customers[i].statement) == Balance(old(customers)[i].statement) + amount
      ensures Solvent(old(customers)) && amount >= 0 ==> Solvent(customers)
    {
      var found := FindIndex(customers, cpf);
      if found.None? {
        return Fail(CustomerNotFound);
      }
      var i := found.value;
      var c := customers[i];
      var c' := c.(statement := c.statement + [CreditOp(amount, now, description)]);
      BalanceAppend(c.statement, CreditOp(amount, now, description));
      SameCpfUpdate(customers, i, c');
      if Solvent(customers) && amount >= 0 {
        SolventUpdate(customers, i, c');
      }
      customers := customers[i := c'];
      r := Pass;
    }

    /** POST /withdraw (src/index.js:120-139): fails with insufficient funds, changing nothing,
        when the balance is below the amount; otherwise appends one debit, stamped `now`,
        and the new balance is the old one less the amount, never negative. */
    method Withdraw(cpf: string, amount: int, now: Instant) returns (r: Outcome<Error>)
      requires Valid()
      modifies this
      ensures Valid()
      ensures match FindIndex(old(customers), cpf)
        case None => r == Fail(CustomerNotFound) && customers == old(customers)
        case Some(i) =>
          if Balance(old(customers)[i].statement) < amount then
            r == Fail(InsufficientFunds) && customers == old(customers)
          else
            && r == Pass
            && customers == old(customers)[i := old(customers)[i].(statement := old(customers)[i].statement + [DebitOp(amount, now)])]
            && Balance(customers[i].statement) == Balance(old(customers)[i].statement) - amount
            && Balance(customers[i].statement) >= 0
      ensures Solvent(old(customers)) ==> Solvent(customers)
    {
      var found := FindIndex(customers, cpf);
      if found.None? {
        return Fail(CustomerNotFound);
      }
      var i := found.value;
      var c := customers[i];
      if Balance(c.statement) < amount {
        return Fail(InsufficientFunds);
      }
      var c' := c.(statement := c.statement + [DebitOp(amount, now)]);
      GuardedDebitKeepsBalanceNonNegative(c.statement, amount, now);
      SameCpfUpdate(customers, i, c');
      if Solvent(customers) {
        SolventUpdate(customers, i, c');
      }
      customers := customers[i := c'];
      r := Pass;
    }

    /** GET /balance (src/index.js:141-147): the customer's balance, by the intended fold. */
    method BalanceOf(cpf: string) returns (r: Result<int, Error>)
      ensures r.Err? <==> !CpfTaken(customers, cpf)
      ensures r.Err? ==> r.error == CustomerNotFound
      ensures r.Ok? ==> exists i: nat :: IsFirstWithCpf(customers, cpf, i) && r.value == Balance(customers[i].statement)
    {
      var found := FindIndex(customers, cpf);
      if found.None? {
        return Err(CustomerNotFound);
      }
      r := Ok(Balance(customers[found.value].statement));
    }
  }
}
