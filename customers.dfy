/** The customers screens: the searchable customer list, the add and edit
    forms whose phone input stores the masked number, and the customer
    view with its order count and order status badges. */
module Customers {
  import opened Text
  import opened Lists
  import opened MaskedInput
  import opened Entities

  /** The add / edit customer form. */
  datatype CustomerForm = CustomerForm(name: string, phone: string, address: string)

  /** The list search: the lower-cased name contains the lower-cased query,
      or the phone contains the query as typed. */
  predicate CustomerMatches(c: Customer, query: string)
  {
    Contains(Lower(c.name), Lower(query)) || Contains(c.phone, query)
  }

  /** filteredCustomers (the customers list and the wizard's customer
      picker use the same rule). */
  function FilteredCustomers(customers: seq<Customer>, query: string): (r: seq<Customer>)
    ensures forall c :: c in r <==> c in customers && CustomerMatches(c, query)
    ensures |r| <= |customers|
  {
    Filter(customers, (c: Customer) => CustomerMatches(c, query))
  }

  /** The search result is an order-preserving sub-list, and an empty
      query keeps every customer. */
  lemma FilteredCustomersKeepOrder(customers: seq<Customer>, query: string)
    ensures IsSubsequence(FilteredCustomers(customers, query), customers)
    ensures query == "" ==> FilteredCustomers(customers, query) == customers
  {
    FilterIsSubsequence(customers, (c: Customer) => CustomerMatches(c, query));
    if query == "" {
      forall i | 0 <= i < |customers|
        ensures CustomerMatches(customers[i], query)
      {
        ContainsEmpty(Lower(customers[i].name));
      }
      FilterKeepsAll(customers, (c: Customer) => CustomerMatches(c, query));
    }
  }

  /** formatPhoneNumber of the add and edit forms: the phone field takes
      the masked value of what was typed; name and address are kept. */
  function WithTypedPhone(form: CustomerForm, typed: string): (r: CustomerForm)
    ensures r.name == form.name && r.address == form.address
    ensures |r.phone| <= 12
    ensures |r.phone| == 12 <==> IsPhoneShape(r.phone)
  {
    FullPhoneHasShape(typed);
    form.(phone := FormatPhone(typed))
  }

  /** The stored phone is a fixed point of the mask: the next input event
      on the field, with nothing typed, leaves the form as it is. */
  lemma TypedPhoneIsStable(form: CustomerForm, typed: string)
    ensures var f := WithTypedPhone(form, typed); WithTypedPhone(f, f.phone) == f
  {
    PhoneIdempotent(typed);
  }

  /** `orders?.length || 0`: the number of orders, 0 when the field is
      missing. */
  function OrderCount(c: Customer): (n: nat)
    ensures n == 0 <==> c.orders.None? || c.orders.value == []
    ensures c.orders.Some? ==> n == |c.orders.value|
  {
    if c.orders.Some? then |c.orders.value| else 0
  }

  /** The status badge of an order on the customer view: green for
      'completed', blue for 'in progress', yellow for anything else. */
  function OrderStatusTone(status: string): (t: Tone)
    ensures t == Green <==> status == "completed"
    ensures t == Blue <==> status == "in progress"
    ensures t != Purple && t != Grey
  {
    if status == "completed" then Green
    else if status == "in progress" then Blue
    else Yellow
  }
}
