/** The four-step order-placement wizard: (1) pick a saved customer or
    add a new one, (2) describe one or more garment lines, (3) take
    measurements or rely on an uploaded measurement file, (4) review and
    adjust the total. Advancing is gated by the validators below; the back
    button moves one step at a time. */
module PlaceOrder {
  import opened Base
  import opened Text
  import opened MaskedInput
  import opened Customers
  import opened MeasurementDetails

  // ---------------------------------------------------------------------
  // Step 1: the new-customer form

  /** The characters of the name check `[!@#$%^&*(),.?":{}|<>]`. */
  const SpecialCharacters: string := "!@#$%^&*(),.?\":{}|<>"

  predicate HasSpecialCharacter(name: string)
  {
    exists i | 0 <= i < |name| :: name[i] in SpecialCharacters
  }

  datatype NewCustomerVerdict = FillAllFields | NameHasSpecialCharacters | InvalidPhone | CustomerAccepted

  /** The checks of "Continue with New Customer", first failure wins. */
  function CheckNewCustomer(form: CustomerForm): (v: NewCustomerVerdict)
    ensures v == FillAllFields <==> form.name == "" || form.phone == "" || form.address == ""
    ensures v == NameHasSpecialCharacters <==>
              form.name != "" && form.phone != "" && form.address != "" && HasSpecialCharacter(form.name)
    ensures v == CustomerAccepted <==>
              form.name != "" && form.phone != "" && form.address != ""
              && !HasSpecialCharacter(form.name) && |form.phone| == 12
  {
    if form.name == "" || form.phone == "" || form.address == "" then FillAllFields
    else if HasSpecialCharacter(form.name) then NameHasSpecialCharacters
    else if |form.phone| != 12 then InvalidPhone
    else CustomerAccepted
  }

  /** With the phone typed through the mask, the form is accepted exactly
      when name and address are filled, the name has none of the special
      characters and at least eleven digits were typed. */
  lemma TypedFormAcceptedIff(form: CustomerForm, typed: string)
    ensures CheckNewCustomer(WithTypedPhone(form, typed)) == CustomerAccepted <==>
              form.name != "" && form.address != "" && !HasSpecialCharacter(form.name)
              && |Digits(typed)| >= 11
  {
  }

  // ---------------------------------------------------------------------
  // Step 2: garment lines

  /** A customisation picked for one of the item's options. */
  datatype OptionChoice = OptionChoice(name: string, customization: string)

  /** One garment line: catalogue item name (`type`), notes, price and the
      picked customisations. */
  datatype ProductLine = ProductLine(itemType: string, instructions: string, price: int,
                                     options: seq<OptionChoice>)

  const BlankLine := ProductLine("", "", 0, [])

  /** The fields `handleProductChange` is called with. */
  datatype ProductEdit = SetType(itemType: string) | SetInstructions(instructions: string) | SetPrice(price: int)

  function ApplyEdit(line: ProductLine, edit: ProductEdit): (r: ProductLine)
    ensures r.options == line.options
    ensures edit.SetType? ==> r == line.(itemType := edit.itemType)
    ensures edit.SetInstructions? ==> r == line.(instructions := edit.instructions)
    ensures edit.SetPrice? ==> r == line.(price := edit.price)
  {
    match edit
    case SetType(t) => line.(itemType := t)
    case SetInstructions(s) => line.(instructions := s)
    case SetPrice(p) => line.(price := p)
  }

  /** `findIndex` by option name: the first position holding the name, or
      -1. */
  function FindOption(options: seq<OptionChoice>, name: string): (k: int)
    ensures -1 <= k < |options|
    ensures k >= 0 ==> options[k].name == name && forall j :: 0 <= j < k ==> options[j].name != name
    ensures k == -1 <==> forall j :: 0 <= j < |options| ==> options[j].name != name
  {
    if options == [] then -1
    else if options[0].name == name then 0
    else
      var k := FindOption(options[1..], name);
      if k == -1 then -1 else k + 1
  }

  /** handleOptionChange on one line's options: the first option of that
      name takes the new customisation, otherwise the choice is appended. */
  function UpsertOption(options: seq<OptionChoice>, name: string, customization: string): (r: seq<OptionChoice>)
    ensures var k := FindOption(options, name);
            if k >= 0 then
              && |r| == |options|
              && r[k] == OptionChoice(name, customization)
              && forall j :: 0 <= j < |r| && j != k ==> r[j] == options[j]
            else
              r == options + [OptionChoice(name, customization)]
  {
    var k := FindOption(options, name);
    if k >= 0 then options[k := options[k].(customization := customization)]
    else options + [OptionChoice(name, customization)]
  }

  /** After the change, looking the option up finds the new customisation;
      picking the same value again changes nothing more. */
  lemma {:induction false} UpsertThenLookup(options: seq<OptionChoice>, name: string, customization: string)
    ensures var r := UpsertOption(options, name, customization);
            var k := FindOption(r, name);
            k >= 0 && r[k].customization == customization
    ensures var r := UpsertOption(options, name, customization);
            UpsertOption(r, name, customization) == r
  {
    var r := UpsertOption(options, name, customization);
    var k := FindOption(options, name);
    if k >= 0 {
      assert forall j :: 0 <= j < k ==> r[j].name != name;
      assert FindOption(r, name) == k;
    } else {
      assert r[|options|].name == name;
      assert forall j :: 0 <= j < |options| ==> r[j].name != name;
      assert FindOption(r, name) == |options|;
    }
  }

  /** The total of the line prices (the `reduce` behind `totalPrice`). */
  function SumPrices(lines: seq<ProductLine>): int
  {
    if lines == [] then 0 else lines[0].price + SumPrices(lines[1..])
  }

  lemma {:induction false} SumPricesAppend(a: seq<ProductLine>, b: seq<ProductLine>)
    ensures SumPrices(a + b) == SumPrices(a) + SumPrices(b)
  {
    if a == [] {
      assert a + b == b;
    } else {
      assert (a + b)[1..] == a[1..] + b;
      SumPricesAppend(a[1..], b);
    }
  }

  lemma SumPricesCons(line: ProductLine, rest: seq<ProductLine>)
    ensures SumPrices([line] + rest) == line.price + SumPrices(rest)
  {
    assert ([line] + rest)[1..] == rest;
  }

  /** Changing one line moves the total by that line's price difference. */
  lemma SumPricesUpdate(lines: seq<ProductLine>, i: int, line: ProductLine)
    requires 0 <= i < |lines|
    ensures SumPrices(lines[i := line]) == SumPrices(lines) - lines[i].price + line.price
  {
    var before, after := lines[..i], lines[i + 1..];
    assert lines == before + ([lines[i]] + after);
    assert lines[i := line] == before + ([line] + after);
    SumPricesAppend(before, [lines[i]] + after);
    SumPricesAppend(before, [line] + after);
    SumPricesCons(lines[i], after);
    SumPricesCons(line, after);
  }

  /** Removing a line takes its price off the total. */
  lemma SumPricesRemove(lines: seq<ProductLine>, i: int)
    requires 0 <= i < |lines|
    ensures SumPrices(lines[..i] + lines[i + 1..]) == SumPrices(lines) - lines[i].price
  {
    var before, after := lines[..i], lines[i + 1..];
    var whole := before + ([lines[i]] + after);
    assert lines == whole;
    SumPricesAppend(before, [lines[i]] + after);
    SumPricesAppend(before, after);
    SumPricesCons(lines[i], after);
  }

  /** Step 2's gate: no line is still without an item type. */
  predicate AllLinesTyped(lines: seq<ProductLine>)
  {
    forall i :: 0 <= i < |lines| ==> lines[i].itemType != ""
  }

  /** A freshly added line holds the wizard at step 2, and choosing an
      item for the only untyped line releases it. */
  lemma BlankLineBlocksItems(lines: seq<ProductLine>, i: int, name: string, price: int)
    requires 0 <= i < |lines|
    ensures !AllLinesTyped(lines + [BlankLine])
    ensures (forall j :: 0 <= j < |lines| && j != i ==> lines[j].itemType != "") && name != "" ==>
              AllLinesTyped(lines[i := lines[i].(itemType := name, price := price)])
  {
    assert (lines + [BlankLine])[|lines|] == BlankLine;
  }

  // ---------------------------------------------------------------------
  // Step 3: measurements

  datatype MeasurementVerdict = FileOnRecord | MissingMeasurement | BelowMinimum | AboveMaximum | WithinBounds

  predicate Advances(v: MeasurementVerdict)
  {
    v == FileOnRecord || v == WithinBounds
  }

  /** A file was just uploaded, files are listed, or the profile says one
      exists. */
  predicate HasMeasurementFile(justUploaded: bool, fileCount: nat, m: Measurements)
  {
    justUploaded || fileCount > 0 || m.hasExistingFile == Some(true)
  }

  /** One of the seven is falsy (0). */
  predicate AnyMissing(m: Measurements)
  {
    m.chest == 0.0 || m.shoulders == 0.0 || m.neck == 0.0 || m.sleeves == 0.0
    || m.waist == 0.0 || m.bottomLength == 0.0 || m.topLength == 0.0
  }

  /** `Object.values(measurements).some(m => m < 1)`: the values include
      the profile's `hasExistingFile` flag when present, and `false`
      compares as 0. */
  predicate AnyBelowOne(m: Measurements)
  {
    || m.chest < 1.0 || m.neck < 1.0 || m.shoulders < 1.0 || m.sleeves < 1.0
    || m.topLength < 1.0 || m.bottomLength < 1.0 || m.waist < 1.0
    || m.hasExistingFile == Some(false)
  }

  predicate AnyAboveMaximum(m: Measurements)
  {
    m.chest > 100.0 || m.shoulders > 50.0 || m.neck > 30.0 || m.sleeves > 50.0
    || m.waist > 50.0 || m.bottomLength > 100.0 || m.topLength > 100.0
  }

  /** The checks of "Review Order", first failure wins. */
  function CheckMeasurements(justUploaded: bool, fileCount: nat, m: Measurements): MeasurementVerdict
  {
    if HasMeasurementFile(justUploaded, fileCount, m) then FileOnRecord
    else if AnyMissing(m) then MissingMeasurement
    else if AnyBelowOne(m) then BelowMinimum
    else if AnyAboveMaximum(m) then AboveMaximum
    else WithinBounds
  }

  /** Each measurement lies between 1 and its maximum. */
  predicate InRange(m: Measurements)
  {
    && 1.0 <= m.chest <= 100.0 && 1.0 <= m.shoulders <= 50.0 && 1.0 <= m.neck <= 30.0
    && 1.0 <= m.sleeves <= 50.0 && 1.0 <= m.waist <= 50.0
    && 1.0 <= m.bottomLength <= 100.0 && 1.0 <= m.topLength <= 100.0
  }

  /** The step-3 gate lets the wizard advance exactly when a file is on
      record or every measurement is in range (and the profile does not
      carry a `false` file flag); without a file, the verdict names the
      first failing check. */
  lemma ReviewAdvancesIff(justUploaded: bool, fileCount: nat, m: Measurements)
    ensures Advances(CheckMeasurements(justUploaded, fileCount, m)) <==>
              HasMeasurementFile(justUploaded, fileCount, m)
              || (InRange(m) && m.hasExistingFile != Some(false))
    ensures CheckMeasurements(justUploaded, fileCount, m) == FileOnRecord <==>
              HasMeasurementFile(justUploaded, fileCount, m)
    ensures !HasMeasurementFile(justUploaded, fileCount, m) && AnyMissing(m) ==>
              CheckMeasurements(justUploaded, fileCount, m) == MissingMeasurement
  {
  }

  /** A profile that carries `hasExistingFile: false` and no file can
      never pass manual entry: the flag itself counts as a value below 1. */
  lemma FalseFileFlagBlocksManualEntry(fileCount: nat, m: Measurements)
    requires fileCount == 0 && m.hasExistingFile == Some(false)
    ensures !Advances(CheckMeasurements(false, fileCount, m))
  {
  }

  // ---------------------------------------------------------------------
  // The wizard

  /** The reply to "add customer": the request failed, the server answered
      without an id, or it created the customer (and the follow-up
      measurement save succeeded or failed). */
  datatype AddCustomerReply = AddFailed | NoId | Added(id: string, measurementsSaved: bool)

  class PlaceOrderWizard {
    var step: int
    var customer: CustomerForm
    var savedCustomer: Option<string>
    var products: seq<ProductLine>
    var totalPrice: int
    var measurementFileUploaded: bool
    const panel: MeasurementPanel

    /** The step is one of the four and there is always a first line. */
    ghost predicate Valid()
      reads this
    {
      1 <= step <= 4 && |products| >= 1
    }

    /** The measurement panel after a profile fetch that found it holding
        `m0`, `f0` and `h0`, as the panel's loader promises. */
    ghost predicate PanelLoaded(profile: Option<CustomerProfile>, m0: Measurements, f0: seq<FileRecord>, h0: bool)
      reads panel
    {
      match profile
      case None => panel.measurements == m0 && panel.uploadedFiles == f0 && panel.hasUploadedFile == h0
      case Some(p) =>
        && panel.measurements == (if p.measurements.Some? then p.measurements.value else m0)
        && panel.uploadedFiles == (if |p.files| > 0 then p.files else f0)
        && panel.hasUploadedFile == (|p.files| > 0)
    }

    constructor ()
      ensures Valid() && fresh(panel)
      ensures step == 1 && customer == CustomerForm("", "", "") && savedCustomer == None
      ensures products == [BlankLine] && totalPrice == 0 && !measurementFileUploaded
      ensures panel.measurements == BlankMeasurements && panel.uploadedFiles == [] && !panel.hasUploadedFile
    {
      step := 1;
      customer := CustomerForm("", "", "");
      savedCustomer := None;
      products := [BlankLine];
      totalPrice := 0;
      measurementFileUploaded := false;
      panel := new MeasurementPanel();
    }

    /** The back arrow (and the Back buttons of steps 3 and 4): offered
        from step 2 on, one step back. */
    method Back()
      requires Valid() && step > 1
      modifies this
      ensures Valid() && step == old(step) - 1
      ensures products == old(products) && customer == old(customer) && totalPrice == old(totalPrice)
      ensures savedCustomer == old(savedCustomer) && measurementFileUploaded == old(measurementFileUploaded)
    {
      step := step - 1;
    }

    method SetName(name: string)
      requires Valid()
      modifies this
      ensures Valid() && customer == old(customer).(name := name)
      ensures step == old(step) && products == old(products) && totalPrice == old(totalPrice)
      ensures savedCustomer == old(savedCustomer) && measurementFileUploaded == old(measurementFileUploaded)
    {
      customer := customer.(name := name);
    }

    method SetAddress(address: string)
      requires Valid()
      modifies this
      ensures Valid() && customer == old(customer).(address := address)
      ensures step == old(step) && products == old(products) && totalPrice == old(totalPrice)
      ensures savedCustomer == old(savedCustomer) && measurementFileUploaded == old(measurementFileUploaded)
    {
      customer := customer.(address := address);
    }

    /** The phone input: the mask rewrites the typed text before it is
        stored. */
    method TypePhone(typed: string)
      requires Valid()
      modifies this
      ensures Valid() && customer == WithTypedPhone(old(customer), typed)
      ensures step == old(step) && products == old(products) && totalPrice == old(totalPrice)
      ensures savedCustomer == old(savedCustomer) && measurementFileUploaded == old(measurementFileUploaded)
    {
      customer := WithTypedPhone(customer, typed);
    }

    /** A change of `savedCustomer` to a customer triggers the profile
        fetch. */
    method SaveCustomer(id: string, profile: Option<CustomerProfile>)
      modifies this, panel
      ensures savedCustomer == Some(id)
      ensures old(savedCustomer) == Some(id) ==>
                PanelLoaded(None, old(panel.measurements), old(panel.uploadedFiles), old(panel.hasUploadedFile))
      ensures old(savedCustomer) != Some(id) ==>
                PanelLoaded(profile, old(panel.measurements), old(panel.uploadedFiles), old(panel.hasUploadedFile))
      ensures step == old(step) && products == old(products) && totalPrice == old(totalPrice)
      ensures customer == old(customer) && measurementFileUploaded == old(measurementFileUploaded)
    {
      if savedCustomer != Some(id) {
        savedCustomer := Some(id);
        panel.LoadCustomerProfile(profile);
      }
    }

    /** "Continue with New Customer": the form checks, then the add
        request. Only a reply with an id moves on, and only once the
        measurements were saved as well; a failure returns to step 1. */
    method ContinueWithNewCustomer(reply: AddCustomerReply, profile: Option<CustomerProfile>)
      returns (v: NewCustomerVerdict)
      requires Valid() && step == 1
      modifies this, panel
      ensures Valid() && v == CheckNewCustomer(old(customer))
      ensures v != CustomerAccepted ==> savedCustomer == old(savedCustomer) && step == 1
      ensures v == CustomerAccepted && reply.Added? ==>
                savedCustomer == Some(reply.id) && step == (if reply.measurementsSaved then 2 else 1)
      ensures v == CustomerAccepted && !reply.Added? ==> savedCustomer == old(savedCustomer) && step == 1
      ensures PanelLoaded(if v == CustomerAccepted && reply.Added? && old(savedCustomer) != Some(reply.id)
                          then profile else None,
                          old(panel.measurements), old(panel.uploadedFiles), old(panel.hasUploadedFile))
      ensures products == old(products) && totalPrice == old(totalPrice) && customer == old(customer)
      ensures measurementFileUploaded == old(measurementFileUploaded)
    {
      v := CheckNewCustomer(customer);
      if v == CustomerAccepted && reply.Added? {
        SaveCustomer(reply.id, profile);
        if reply.measurementsSaved {
          step := 2;
        }
      }
    }

    /** A click on a listed customer selects them and moves to step 2. */
    method SelectExistingCustomer(id: string, profile: Option<CustomerProfile>)
      requires Valid() && step == 1
      modifies this, panel
      ensures Valid() && savedCustomer == Some(id) && step == 2
      ensures PanelLoaded(if old(savedCustomer) != Some(id) then profile else None,
                          old(panel.measurements), old(panel.uploadedFiles), old(panel.hasUploadedFile))
      ensures products == old(products) && totalPrice == old(totalPrice) && customer == old(customer)
      ensures measurementFileUploaded == old(measurementFileUploaded)
    {
      SaveCustomer(id, profile);
      step := 2;
    }

    /** handleProductChange: one field of one line; the total follows. */
    method HandleProductChange(index: int, edit: ProductEdit)
      requires Valid() && 0 <= index < |products|
      modifies this
      ensures Valid() && step == old(step)
      ensures products == old(products)[index := ApplyEdit(old(products)[index], edit)]
      ensures totalPrice == SumPrices(products)
      ensures totalPrice == SumPrices(old(products)) - old(products)[index].price + products[index].price
      ensures customer == old(customer) && savedCustomer == old(savedCustomer)
      ensures measurementFileUploaded == old(measurementFileUploaded)
    {
      products := products[index := ApplyEdit(products[index], edit)];
      totalPrice := SumPrices(products);
      SumPricesUpdate(old(products), index, products[index]);
    }

    /** A click on a catalogue item: the line takes its name, then its
        price. */
    method ChooseItem(index: int, name: string, price: int)
      requires Valid() && 0 <= index < |products|
      modifies this
      ensures Valid() && step == old(step)
      ensures products == old(products)[index := old(products)[index].(itemType := name, price := price)]
      ensures totalPrice == SumPrices(products)
      ensures customer == old(customer) && savedCustomer == old(savedCustomer)
      ensures measurementFileUploaded == old(measurementFileUploaded)
    {
      HandleProductChange(index, SetType(name));
      HandleProductChange(index, SetPrice(price));
    }

    /** handleOptionChange: one line's options are upserted; other lines,
        the line's other fields and the total stay. */
    method HandleOptionChange(index: int, name: string, customization: string)
      requires Valid() && 0 <= index < |products|
      modifies this
      ensures Valid() && step == old(step)
      ensures products == old(products)[index := old(products)[index].(options :=
                UpsertOption(old(products)[index].options, name, customization))]
      ensures totalPrice == SumPrices(products) == SumPrices(old(products))
      ensures customer == old(customer) && savedCustomer == old(savedCustomer)
      ensures measurementFileUploaded == old(measurementFileUploaded)
    {
      var line := products[index];
      products := products[index := line.(options := UpsertOption(line.options, name, customization))];
      totalPrice := SumPrices(products);
      SumPricesUpdate(old(products), index, products[index]);
    }

    /** "Add Another Item": a blank line at the end; the total is
        unchanged. */
    method AddProduct()
      requires Valid()
      modifies this
      ensures Valid() && step == old(step)
      ensures products == old(products) + [BlankLine]
      ensures totalPrice == SumPrices(products) == SumPrices(old(products))
      ensures customer == old(customer) && savedCustomer == old(savedCustomer)
      ensures measurementFileUploaded == old(measurementFileUploaded)
    {
      products := products + [BlankLine];
      totalPrice := SumPrices(products);
      SumPricesAppend(old(products), [BlankLine]);
    }

    /** "Remove Item", offered on every line but the first. */
    method RemoveProduct(index: int)
      requires Valid() && 0 < index < |products|
      modifies this
      ensures Valid() && step == old(step)
      ensures products == old(products)[..index] + old(products)[index + 1..]
      ensures totalPrice == SumPrices(products) == SumPrices(old(products)) - old(products)[index].price
      ensures customer == old(customer) && savedCustomer == old(savedCustomer)
      ensures measurementFileUploaded == old(measurementFileUploaded)
    {
      products := products[..index] + products[index + 1..];
      totalPrice := SumPrices(products);
      SumPricesRemove(old(products), index);
    }

    /** Step 2's "Continue": on to measurements once every line is typed. */
    method ContinueToMeasurements() returns (advanced: bool)
      requires Valid() && step == 2
      modifies this
      ensures Valid() && advanced == AllLinesTyped(products)
      ensures step == (if advanced then 3 else 2)
      ensures products == old(products) && totalPrice == old(totalPrice)
      ensures customer == old(customer) && savedCustomer == old(savedCustomer)
      ensures measurementFileUploaded == old(measurementFileUploaded)
    {
      advanced := AllLinesTyped(products);
      if advanced {
        step := 3;
      }
    }

    /** handleFileUpload of the wizard: records that a file was uploaded. */
    method HandleFileUpload(isUploaded: bool)
      requires Valid()
      modifies this
      ensures Valid() && measurementFileUploaded == isUploaded
      ensures step == old(step) && products == old(products) && totalPrice == old(totalPrice)
      ensures customer == old(customer) && savedCustomer == old(savedCustomer)
    {
      measurementFileUploaded := isUploaded;
    }

    /** "Review Order": on to step 4 when the measurement checks pass. */
    method ReviewOrder() returns (v: MeasurementVerdict)
      requires Valid() && step == 3
      modifies this
      ensures Valid()
      ensures v == CheckMeasurements(measurementFileUploaded, |panel.uploadedFiles|, panel.measurements)
      ensures step == (if Advances(v) then 4 else 3)
      ensures products == old(products) && totalPrice == old(totalPrice)
      ensures customer == old(customer) && savedCustomer == old(savedCustomer)
      ensures measurementFileUploaded == old(measurementFileUploaded)
    {
      v := CheckMeasurements(measurementFileUploaded, |panel.uploadedFiles|, panel.measurements);
      if Advances(v) {
        step := 4;
      }
    }

    /** The editable total of step 4. */
    method AdjustTotal(total: int)
      requires Valid() && step == 4
      modifies this
      ensures Valid() && step == 4 && totalPrice == total && products == old(products)
      ensures customer == old(customer) && savedCustomer == old(savedCustomer)
      ensures measurementFileUploaded == old(measurementFileUploaded)
    {
      totalPrice := total;
    }
  }
}
