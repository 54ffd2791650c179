/** The `CUSTOMER` class: construction with age clamping and balance validation,
    the alternative constructor, and `==`. A customer is never changed after it is
    constructed, so it is modelled as a value. */
module Customers {
  import opened Errors

  /** Class attribute shared by every customer. */
  const MinAge: int := 18

  datatype Customer = Customer(name: string, age: int, id: int, balance: int)

  /** What construction guarantees of every customer it produces. */
  predicate Valid(c: Customer) {
    c.age >= MinAge && c.balance >= 0
  }

  /** The age a customer is given: the supplied one, raised to MinAge when below it
      (never rejected). The result is the larger of the two. */
  function ClampAge(age: int): (r: int)
    ensures r >= MinAge && r >= age
    ensures r == age || r == MinAge
  {
    if age >= MinAge then age else MinAge
  }

  /** `CUSTOMER(name, age, id, balance)`: raises `BalanceError` exactly when the balance
      is negative; otherwise stores name, id and balance as given and the clamped age. */
  function NewCustomer(name: string, age: int, id: int, balance: int): (r: Result<Customer>)
    ensures r.Err? <==> balance < 0
    ensures r.Err? ==> r.error == BalanceError
    ensures r.Ok? ==> r.value.name == name && r.value.id == id && r.value.balance == balance
    ensures r.Ok? ==> r.value.age == ClampAge(age) && Valid(r.value)
  {
    var age' := ClampAge(age);
    if balance < 0 then Err(BalanceError) else Ok(Customer(name, age', id, balance))
  }

  /** `CUSTOMER.from_file`, once the four lines of the record have been read and parsed:
      it hands them to the constructor unchanged. */
  function FromRecord(name: string, age: int, id: int, balance: int): (r: Result<Customer>)
    ensures r == NewCustomer(name, age, id, balance)
  {
    NewCustomer(name, age, id, balance)
  }

  /** `a == b`: the two customers agree everywhere except, possibly, on their balance. */
  function Equal(a: Customer, b: Customer): (r: bool)
    ensures r <==> a.(balance := b.balance) == b
  {
    a.id == b.id && a.name == b.name && a.age == b.age
  }

  /** `==` is an equivalence relation on customers. */
  lemma EqualIsEquivalence(a: Customer, b: Customer, c: Customer)
    ensures Equal(a, a)
    ensures Equal(a, b) == Equal(b, a)
    ensures Equal(a, b) && Equal(b, c) ==> Equal(a, c)
  {
  }

  /** Two customers constructed from the same name, age and id compare equal whatever
      their balances; and two under-age customers with the same name and id compare equal
      whatever ages were supplied, since both were raised to MinAge. */
  lemma ConstructedEqual(name: string, age1: int, age2: int, id: int, balance1: int, balance2: int)
    requires balance1 >= 0 && balance2 >= 0
    requires age1 == age2 || (age1 < MinAge && age2 < MinAge)
    ensures NewCustomer(name, age1, id, balance1).Ok? && NewCustomer(name, age2, id, balance2).Ok?
    ensures Equal(NewCustomer(name, age1, id, balance1).value, NewCustomer(name, age2, id, balance2).value)
  {
  }

  /** Equality does not determine the balance: there are equal customers whose balances differ. */
  lemma EqualDespiteDifferentBalances()
    ensures exists a: Customer, b: Customer :: Valid(a) && Valid(b) && Equal(a, b) && a.balance != b.balance
  {
    var a := NewCustomer("Zikri", 21, 777, 0).value;
    var b := NewCustomer("Zikri", 21, 777, 100).value;
    assert Valid(a) && Valid(b) && Equal(a, b) && a.balance != b.balance;
  }
}
