/** The garment details dialog: the cutter and tailor selectors, the
    assignment request and the rule that only pending garments can be
    assigned. */
module ItemAssignment {
  import opened Base
  import opened Lists
  import opened Entities

  /** The employee types the add and edit forms offer. */
  const OfferedRoles: seq<string> := ["Cutter", "Stitcher", "Designer", "Sales"]

  predicate IsCutter(e: Employee)
  {
    e.role == "cutter"
  }

  predicate IsTailor(e: Employee)
  {
    e.role == "tailor"
  }

  function Cutters(employees: seq<Employee>): (r: seq<Employee>)
    ensures forall e :: e in r <==> e in employees && e.role == "cutter"
  {
    Filter(employees, IsCutter)
  }

  function Tailors(employees: seq<Employee>): (r: seq<Employee>)
    ensures forall e :: e in r <==> e in employees && e.role == "tailor"
  {
    Filter(employees, IsTailor)
  }

  /** No employee is offered as both; and since the comparison is exact,
      none of the roles the employee forms offer is listed in either
      selector. */
  lemma RoleSplit(employees: seq<Employee>)
    ensures forall e :: e in Cutters(employees) ==> e !in Tailors(employees)
    ensures forall e :: e in employees && e.role in OfferedRoles ==>
              e !in Cutters(employees) && e !in Tailors(employees)
  {
  }

  /** A selector value is set when it is a non-empty recorded value. The
      selects record on click, and the placeholder option has no `value`,
      so its text ("Select Cutter") counts as set too. */
  predicate Selected(choice: Option<string>)
  {
    choice.Some? && choice.value != ""
  }

  /** handleEmployeeAssignment: the pair is sent only when both
      selectors hold a set value. */
  function AssignmentRequest(cutter: Option<string>, tailor: Option<string>): (sent: Option<(string, string)>)
    ensures sent.Some? <==> Selected(cutter) && Selected(tailor)
    ensures sent.Some? ==> sent.value == (cutter.value, tailor.value)
  {
    if !Selected(tailor) || !Selected(cutter) then None else Some((cutter.value, tailor.value))
  }

  /** The selectors and the Save button are shown for a pending garment
      only. */
  predicate ControlsShown(item: Product)
  {
    item.status == "pending"
  }

  /** Once a garment moves past 'pending' its assignment can no longer be
      changed from the dialog. */
  lemma OnlyPendingAssignable(item: Product, status: string)
    requires status != "pending"
    ensures !ControlsShown(item.(status := status))
    ensures ControlsShown(item.(status := "pending"))
  {
  }
}
