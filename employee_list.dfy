/** The employees list: search by name or phone, filter by role, the
    payment dialog's amount guard and the balance label of each row. */
module EmployeeList {
  import opened Base
  import opened Text
  import opened Lists
  import opened Entities

  /** Name or phone contains the query, ignoring case; the role filter is
      'All' or the role itself, ignoring case. */
  predicate EmployeeMatches(e: Employee, query: string, typeQuery: string)
  {
    && (Contains(Lower(e.name), Lower(query)) || Contains(Lower(e.phone), Lower(query)))
    && (typeQuery == "All" || Lower(e.role) == Lower(typeQuery))
  }

  function FilteredEmployees(employees: seq<Employee>, query: string, typeQuery: string): (r: seq<Employee>)
    ensures forall e :: e in r <==> e in employees && EmployeeMatches(e, query, typeQuery)
    ensures |r| <= |employees|
  {
    Filter(employees, (e: Employee) => EmployeeMatches(e, query, typeQuery))
  }

  /** The filter keeps the list order; an empty search with 'All' lists
      everyone. */
  lemma FilteredEmployeesKeepOrder(employees: seq<Employee>, query: string, typeQuery: string)
    ensures IsSubsequence(FilteredEmployees(employees, query, typeQuery), employees)
    ensures query == "" && typeQuery == "All" ==> FilteredEmployees(employees, query, typeQuery) == employees
  {
    FilterIsSubsequence(employees, (e: Employee) => EmployeeMatches(e, query, typeQuery));
    if query == "" && typeQuery == "All" {
      forall i | 0 <= i < |employees|
        ensures EmployeeMatches(employees[i], query, typeQuery)
      {
        ContainsEmpty(Lower(employees[i].name));
      }
      FilterKeepsAll(employees, (e: Employee) => EmployeeMatches(e, query, typeQuery));
    }
  }

  /** handlePayment: an amount of zero or less is refused and nothing is
      sent; otherwise the amount is posted as entered. */
  function PaymentRequest(amount: int): (sent: Option<int>)
    ensures sent.Some? <==> amount > 0
    ensures sent.Some? ==> sent.value == amount
  {
    if amount <= 0 then None else Some(amount)
  }

  datatype BalanceKind = Debit | Credit

  /** The balance cell: 'Debit' for a negative balance, 'Credit'
      otherwise, with the absolute amount. */
  datatype BalanceLabel = BalanceLabel(kind: BalanceKind, amount: nat)

  function LabelOf(payment: int): (l: BalanceLabel)
    ensures l.kind == Debit <==> payment < 0
  {
    if payment < 0 then BalanceLabel(Debit, -payment) else BalanceLabel(Credit, payment)
  }

  /** The label loses nothing: the balance is its amount, negated for a
      debit; and opposite balances get opposite kinds with the same amount. */
  lemma LabelRoundTrip(payment: int)
    ensures var l := LabelOf(payment); (if l.kind == Debit then -(l.amount as int) else l.amount as int) == payment
    ensures payment != 0 ==> LabelOf(-payment).amount == LabelOf(payment).amount
                             && LabelOf(-payment).kind != LabelOf(payment).kind
  {
  }
}
