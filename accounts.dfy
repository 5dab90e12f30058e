/**
 * The customer directory: the global `customers` array of src/main.ts (and of
 * its earlier version src/index.js), the lookup middleware and the handlers
 * that create, rename, deposit to, withdraw from and delete accounts.
 */
module Accounts {
  import opened Wrappers
  import opened Ledger

  /** The error responses of the handlers. */
  datatype Error =
    | AlreadyExists      // 400 "Customer already exists"
    | NotFound           // 404 "Customer not found"
    | InsufficientFunds  // 400 "Insufficient funds!"

  /**
   * One account. The tax identifier and the generated id are never written
   * after creation; the handlers assign the name and push to the statement in
   * place, through the reference the lookup returns.
   */
  class Customer {
    const cpf: string
    const id: string
    var name: string
    var statement: seq<Operation>

    /** The object pushed by the create handler: given cpf, name and id, empty statement. */
    constructor (cpf: string, name: string, id: string)
      ensures this.cpf == cpf && this.name == name && this.id == id
      ensures statement == []
    {
      this.cpf := cpf;
      this.id := id;
      this.name := name;
      statement := [];
    }

    /** The /deposit handler: append one credit; no check on the amount's sign. */
    method Deposit(amount: int, at: int, description: Option<string>)
      modifies this
      ensures statement == old(statement) + [Operation(Credit, amount, at, description)]
      ensures name == old(name)
      ensures Balance(statement) == Balance(old(statement)) + amount
    {
      var op := Operation(Credit, amount, at, description);
      BalanceAppend(statement, op);
      statement := statement + [op];
    }

    /**
     * The /withdraw handler: refuse when the balance is below the amount,
     * otherwise append one debit. Withdrawing exactly the balance is allowed.
     */
    method Withdraw(amount: int, at: int) returns (r: Outcome<Error>)
      modifies this
      ensures r == if Balance(old(statement)) < amount then Fail(InsufficientFunds) else Pass
      ensures r.Fail? ==> statement == old(statement)
      ensures r.Pass? ==> statement == old(statement) + [Operation(Debit, amount, at, None)]
      ensures r.Pass? ==> Balance(statement) == Balance(old(statement)) - amount >= 0
      ensures name == old(name)
    {
      var balance := Balance(statement);
      if balance < amount {
        return Fail(InsufficientFunds);
      }
      var op := Operation(Debit, amount, at, None);
      BalanceAppend(statement, op);
      statement := statement + [op];
      r := Pass;
    }

    /** The PUT /account handler: replace the name, nothing else. */
    method Rename(newName: string)
      modifies this
      ensures name == newName
      ensures statement == old(statement)
    {
      name := newName;
    }
  }

  /** Some customer in `cs` has tax identifier `cpf`. */
  ghost predicate HasCpf(cs: seq<Customer>, cpf: string)
  {
    exists i :: 0 <= i < |cs| && cs[i].cpf == cpf
  }

  /** No two customers share a tax identifier. */
  ghost predicate CpfUnique(cs: seq<Customer>)
  {
    forall i, j :: 0 <= i < j < |cs| ==> cs[i].cpf != cs[j].cpf
  }

  /**
   * `customers.find` / `findIndex` / `some` on `cpf`: the index of the first
   * customer with that tax identifier, or None when there is none.
   */
  function Find(cs: seq<Customer>, cpf: string): (r: Option<nat>)
    ensures r.Some? ==> r.value < |cs| && cs[r.value].cpf == cpf
    ensures r.Some? ==> forall j :: 0 <= j < r.value ==> cs[j].cpf != cpf
    ensures r.None? <==> !HasCpf(cs, cpf)
    decreases |cs|
  {
    if cs == [] then None
    else if cs[0].cpf == cpf then Some(0)
    else match Find(cs[1..], cpf)
      case None => None
      case Some(k) => Some(k + 1)
  }

  /** Appending a customer whose tax identifier is not yet present keeps identifiers unique. */
  lemma AppendKeepsUnique(cs: seq<Customer>, c: Customer)
    requires CpfUnique(cs) && !HasCpf(cs, c.cpf)
    ensures CpfUnique(cs + [c])
    ensures Find(cs + [c], c.cpf) == Some(|cs|)
  {
    var t := cs + [c];
    assert t[|cs|] == c;
    assert HasCpf(t, c.cpf);
    forall i, j | 0 <= i < j < |t|
      ensures t[i].cpf != t[j].cpf
    {
      if j < |cs| {
        assert t[i] == cs[i] && t[j] == cs[j];
      } else {
        assert t[i] == cs[i];
      }
    }
  }

  /**
   * Removing the customer at `i` keeps identifiers unique, drops exactly that
   * customer's identifier and keeps every other customer.
   */
  lemma RemoveKeepsUnique(cs: seq<Customer>, i: nat)
    requires CpfUnique(cs) && i < |cs|
    ensures CpfUnique(cs[..i] + cs[i + 1..])
    ensures !HasCpf(cs[..i] + cs[i + 1..], cs[i].cpf)
    ensures forall c :: c in cs[..i] + cs[i + 1..] <==> c in cs && c.cpf != cs[i].cpf
  {
    var t := cs[..i] + cs[i + 1..];
    assert |t| == |cs| - 1;
    assert forall k :: 0 <= k < |t| ==> t[k] == if k < i then cs[k] else cs[k + 1];
    forall c | c in cs && c.cpf != cs[i].cpf
      ensures c in t
    {
      var k :| 0 <= k < |cs| && cs[k] == c;
      assert k != i;
      if k < i { assert t[k] == c; } else { assert t[k - 1] == c; }
    }
  }

  /** The `customers` array and the operations that change its membership. */
  class Directory {
    var customers: seq<Customer>

    /** At most one customer per tax identifier. */
    ghost predicate Valid()
      reads this
    {
      CpfUnique(customers)
    }

    constructor ()
      ensures Valid() && customers == []
    {
      customers := [];
    }

    /**
     * The verifyIfExistsAccountCPF middleware: the customer whose tax
     * identifier equals the header value, or NotFound exactly when there is none.
     */
    function Lookup(cpf: string): (r: Result<Customer, Error>)
      reads this
      ensures r.Success? ==> r.value in customers && r.value.cpf == cpf
      ensures r.Failure? <==> !HasCpf(customers, cpf)
      ensures r.Failure? ==> r.error == NotFound
      ensures r.Success? && Valid() ==>
                forall i :: 0 <= i < |customers| && customers[i].cpf == cpf ==> customers[i] == r.value
    {
      match Find(customers, cpf)
      case None => Failure(NotFound)
      case Some(i) => Success(customers[i])
    }

    /**
     * POST /account: refuse a tax identifier already present and leave the
     * directory as it was; otherwise push one new customer with an empty statement.
     */
    method Create(cpf: string, name: string, id: string) returns (r: Outcome<Error>)
      requires Valid()
      modifies this
      ensures Valid()
      ensures r.Fail? <==> HasCpf(old(customers), cpf)
      ensures r.Fail? ==> r.error == AlreadyExists && customers == old(customers)
      ensures r.Pass? ==> |customers| == |old(customers)| + 1
      ensures r.Pass? ==> customers[..|old(customers)|] == old(customers)
      ensures r.Pass? ==> var c := customers[|old(customers)|];
                            fresh(c) && c.cpf == cpf && c.name == name && c.id == id && c.statement == []
      ensures r.Pass? ==> Lookup(cpf) == Success(customers[|old(customers)|])
    {
      if Find(customers, cpf).Some? {
        return Fail(AlreadyExists);
      }
      var c := new Customer(cpf, name, id);
      AppendKeepsUnique(customers, c);
      customers := customers + [c];
      r := Pass;
    }

    /**
     * DELETE /account: after the lookup, splice out the customer with that
     * tax identifier and answer with the remaining customers.
     */
    method Delete(cpf: string) returns (r: Result<seq<Customer>, Error>)
      requires Valid()
      modifies this
      ensures Valid()
      ensures r.Failure? <==> !HasCpf(old(customers), cpf)
      ensures r.Failure? ==> r.error == NotFound && customers == old(customers)
      ensures r.Success? ==> r.value == customers
      ensures r.Success? ==> exists i :: 0 <= i < |old(customers)| && old(customers)[i].cpf == cpf &&
                                         customers == old(customers)[..i] + old(customers)[i + 1..]
      ensures forall c :: c in customers <==> c in old(customers) && c.cpf != cpf
      ensures !HasCpf(customers, cpf)
    {
      var found := Lookup(cpf);
      if found.Failure? {
        return Failure(NotFound);
      }
      // findIndex on the found customer's own identifier cannot miss.
      var i := Find(customers, found.value.cpf).value;
      RemoveKeepsUnique(customers, i);
      customers := customers[..i] + customers[i + 1..];
      r := Success(customers);
    }
  }

  /**
   * A sample session: open "111", deposit 100, withdraw 100, then a withdraw
   * of 1 is refused and the statement holds the credit and the debit.
   */
  method WalkThrough()
  {
    var d := new Directory();
    var created := d.Create("111", "Ana", "id-1");
    assert created == Pass;
    var again := d.Create("111", "Bia", "id-2");
    assert again == Fail(AlreadyExists);
    var found := d.Lookup("111");
    assert found.Success?;
    var c := found.value;
    assert c.statement == [];
    c.Deposit(100, 0, None);
    assert Balance(c.statement) == 100;
    var w1 := c.Withdraw(100, 60);
    assert w1 == Pass && Balance(c.statement) == 0;
    var w2 := c.Withdraw(1, 120);
    assert w2 == Fail(InsufficientFunds) && Balance(c.statement) == 0;
    assert c.statement == [Operation(Credit, 100, 0, None), Operation(Debit, 100, 60, None)];
    var gone := d.Delete("111");
    assert gone == Success([]);
    assert d.Lookup("111").Failure?;
  }
}
