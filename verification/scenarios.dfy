/** Clients of the registry that use only the contracts of its methods, as a caller of the
    HTTP handlers would see them. */
module Scenarios {
  import opened Wrappers
  import opened Ledger
  import opened Accounts

  /** Open an account, deposit 500 and 200, withdraw 300: the balance is 400. A further
      withdrawal of 1000 is refused for insufficient funds and the balance stays 400. */
  method OpenDepositWithdraw(now: Instant) returns (before: Result<int, Error>, overdraw: Outcome<Error>, after: Result<int, Error>)
    ensures before == Ok(400)
    ensures overdraw == Fail(InsufficientFunds)
    ensures after == Ok(400)
  {
    var reg := new Registry();
    var created := reg.Create("id-1", "Ana", "111");
    assert reg.customers == [Customer("id-1", "Ana", "111", [])];
    var d1 := reg.Deposit("111", None, 500, now);
    var d2 := reg.Deposit("111", None, 200, now);
    var w1 := reg.Withdraw("111", 300, now);
    assert Balance(reg.customers[0].statement) == 400;
    before := reg.BalanceOf("111");
    overdraw := reg.Withdraw("111", 1000, now);
    after := reg.BalanceOf("111");
  }

  /** The delete handler as written: with customers "1" and "2" registered, deleting "2"
      removes "1", and "2" can still be found. */
  method SplicedDeleteRemovesFirstCustomer() returns (deleted: Outcome<Error>, target: Result<Customer, Error>, other: Result<Customer, Error>)
    ensures deleted == Pass
    ensures target.Ok? && target.value.cpf == "2"
    ensures other == Err(CustomerNotFound)
  {
    var reg := new Registry();
    var c1 := reg.Create("id-1", "Ana", "1");
    var c2 := reg.Create("id-2", "Bia", "2");
    assert reg.customers[1].cpf == "2";
    deleted := reg.Delete("2");
    assert reg.customers == [Customer("id-2", "Bia", "2", [])];
    target := reg.Account("2");
    other := reg.Account("1");
  }

  /** The corrected delete on the same registry removes "2" and keeps "1". */
  method DeleteByCpfRemovesTarget() returns (deleted: Outcome<Error>, target: Result<Customer, Error>, other: Result<Customer, Error>)
    ensures deleted == Pass
    ensures target == Err(CustomerNotFound)
    ensures other.Ok? && other.value.cpf == "1"
  {
    var reg := new Registry();
    var c1 := reg.Create("id-1", "Ana", "1");
    var c2 := reg.Create("id-2", "Bia", "2");
    assert reg.customers[1].cpf == "2";
    deleted := reg.DeleteByCpf("2");
    assert reg.customers == [Customer("id-1", "Ana", "1", [])];
    target := reg.Account("2");
    other := reg.Account("1");
  }
}
