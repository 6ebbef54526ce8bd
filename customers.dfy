/**
 * Adding a customer (pages/Customers.tsx, `handleAddCustomer`): one record
 * appended at the end under a fresh id, with no check for duplicates.
 */
module Customers {
  import opened Seqs
  import opened Types

  /** The customer list with the new customer at the end. */
  function Append(customers: seq<Customer>, freshId: string, name: string, email: string,
                  phone: string): (r: seq<Customer>)
    ensures |r| == |customers| + 1
    ensures r[..|customers|] == customers
    ensures r[|customers|].id == freshId
    ensures r[|customers|].name == name && r[|customers|].email == email && r[|customers|].phone == phone
  {
    customers + [Customer(freshId, name, email, phone)]
  }

  /** How many customers carry this name. */
  function CountNamed(customers: seq<Customer>, name: string): nat
  {
    |Filter(customers, (c: Customer) => c.name == name)|
  }

  /** How many customers carry this e-mail address. */
  function CountWithEmail(customers: seq<Customer>, email: string): nat
  {
    |Filter(customers, (c: Customer) => c.email == email)|
  }

  /** Nothing refuses a repeated name or e-mail: each submission adds one more record carrying them. */
  lemma {:induction false} RepeatsAreAccepted(customers: seq<Customer>, freshId: string, name: string,
                                              email: string, phone: string)
    ensures CountNamed(Append(customers, freshId, name, email, phone), name) == CountNamed(customers, name) + 1
    ensures CountWithEmail(Append(customers, freshId, name, email, phone), email) == CountWithEmail(customers, email) + 1
  {
    var c := Customer(freshId, name, email, phone);
    assert Append(customers, freshId, name, email, phone) == customers + [c];
    FilterConcat(customers, [c], (c: Customer) => c.name == name);
    FilterConcat(customers, [c], (c: Customer) => c.email == email);
  }
}
