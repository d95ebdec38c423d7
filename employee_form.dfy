/** The add-employee and edit-employee forms: masked CNIC and phone
    inputs, one handler that writes the input named by the event, the
    five-step validation of the add form and the two-check gate of the
    edit form. */
module EmployeeForms {
  import opened Base
  import opened Text
  import opened MaskedInput

  /** `employeeData`. */
  datatype EmployeeData = EmployeeData(name: string, cnic: string, phone: string, password: string, role: string)

  const BlankEmployee := EmployeeData("", "", "", "", "")

  /** The text inputs, by their `name` attribute; the role has its own
      select handler. */
  datatype InputName = NameInput | CnicInput | PhoneInput | PasswordInput

  function Input(d: EmployeeData, input: InputName): string
  {
    match input
    case NameInput => d.name
    case CnicInput => d.cnic
    case PhoneInput => d.phone
    case PasswordInput => d.password
  }

  /** handleInputChange: the named input takes the value; the other inputs
      and the role are kept. */
  function HandleInputChange(d: EmployeeData, input: InputName, value: string): (r: EmployeeData)
    ensures Input(r, input) == value
    ensures forall other :: other != input ==> Input(r, other) == Input(d, other)
    ensures r.role == d.role
  {
    match input
    case NameInput => d.(name := value)
    case CnicInput => d.(cnic := value)
    case PhoneInput => d.(phone := value)
    case PasswordInput => d.(password := value)
  }

  /** The role select. */
  function ChangeRole(d: EmployeeData, role: string): (r: EmployeeData)
    ensures r.role == role
    ensures forall input :: Input(r, input) == Input(d, input)
  {
    d.(role := role)
  }

  /** Typing into the CNIC or phone input: the mask runs first, the
      handler stores its output. */
  function TypeCnic(d: EmployeeData, typed: string): (r: EmployeeData)
    ensures r.cnic == FormatCnic(typed) && |r.cnic| <= 15
    ensures r == d.(cnic := r.cnic)
  {
    HandleInputChange(d, CnicInput, FormatCnic(typed))
  }

  function TypePhone(d: EmployeeData, typed: string): (r: EmployeeData)
    ensures r.phone == FormatPhone(typed) && |r.phone| <= 12
    ensures r == d.(phone := r.phone)
  {
    HandleInputChange(d, PhoneInput, FormatPhone(typed))
  }

  datatype AddVerdict = NameRequired | InvalidCnic | InvalidPhone | PasswordRequired | RoleRequired | FormValid

  /** validateForm, first failure wins. */
  function ValidateForm(d: EmployeeData): (v: AddVerdict)
    ensures v == FormValid <==>
              !IsBlank(d.name) && |d.cnic| == 15 && |d.phone| == 12 && !IsBlank(d.password) && d.role != ""
    ensures v == NameRequired <==> IsBlank(d.name)
    ensures v == InvalidCnic <==> !IsBlank(d.name) && |d.cnic| != 15
    ensures v == InvalidPhone <==> !IsBlank(d.name) && |d.cnic| == 15 && |d.phone| != 12
    ensures v == PasswordRequired <==>
              !IsBlank(d.name) && |d.cnic| == 15 && |d.phone| == 12 && IsBlank(d.password)
  {
    if IsBlank(d.name) then NameRequired
    else if |d.cnic| != 15 then InvalidCnic
    else if |d.phone| != 12 then InvalidPhone
    else if IsBlank(d.password) then PasswordRequired
    else if d.role == "" then RoleRequired
    else FormValid
  }

  /** handleAddEmployee: the data is posted only when the form is valid. */
  function AddRequest(d: EmployeeData): (sent: Option<EmployeeData>)
    ensures sent.Some? <==> ValidateForm(d) == FormValid
    ensures sent.Some? ==> sent.value == d
  {
    if ValidateForm(d) == FormValid then Some(d) else None
  }

  /** With CNIC and phone typed through their masks, the two length checks
      pass exactly when at least 13 and 11 digits were typed. */
  lemma TypedLengthsPass(d: EmployeeData, cnicTyped: string, phoneTyped: string)
    ensures var e := TypePhone(TypeCnic(d, cnicTyped), phoneTyped);
            |e.cnic| == 15 && |e.phone| == 12 <==> |Digits(cnicTyped)| >= 13 && |Digits(phoneTyped)| >= 11
  {
  }

  datatype EditVerdict = CnicLengthWrong | PhoneLengthWrong | EditSent

  /** handleEditEmployee: the CNIC length, then the phone length. */
  function CheckEdit(d: EmployeeData): (v: EditVerdict)
    ensures v == EditSent <==> |d.cnic| == 15 && |d.phone| == 12
    ensures v == CnicLengthWrong <==> |d.cnic| != 15
  {
    if |d.cnic| != 15 then CnicLengthWrong
    else if |d.phone| != 12 then PhoneLengthWrong
    else EditSent
  }

  /** Name, password and role play no part in the edit gate; a form the
      add page accepts passes it, while the edit page also sends forms the
      add page refuses (a blank name, say). */
  lemma EditGateIgnoresOtherFields(d: EmployeeData, name: string, password: string, role: string)
    ensures CheckEdit(d.(name := name, password := password, role := role)) == CheckEdit(d)
    ensures ValidateForm(d) == FormValid ==> CheckEdit(d) == EditSent
    ensures var blank := EmployeeData("", "12345-1234567-1", "0300-1234567", "", "");
            CheckEdit(blank) == EditSent && ValidateForm(blank) == NameRequired
  {
    var blank := EmployeeData("", "12345-1234567-1", "0300-1234567", "", "");
    assert IsBlank(blank.name);
  }
}
