/** The measurement panel of the order wizard's third step: seven body
    measurements edited one field at a time, and a list of uploaded
    measurement files (photos or PDFs of a paper sheet) kept next to a
    flag saying a file is on record. The panel edits state it is handed by
    the wizard, so here the three pieces of state are the fields of one
    object. */
module MeasurementDetails {
  import opened Base
  import opened Text
  import opened Lists

  /** The seven measurements (inches; `Number` of the typed text) and the
      `hasExistingFile` flag that a saved customer profile may carry
      next to them. */
  datatype Measurements = Measurements(
    chest: real, neck: real, shoulders: real, sleeves: real,
    topLength: real, bottomLength: real, waist: real,
    hasExistingFile: Option<bool>)

  datatype MeasurementField = Chest | Neck | Shoulders | Sleeves | TopLength | BottomLength | Waist

  /** All seven at 0 and no file flag: the wizard's initial state. */
  const BlankMeasurements := Measurements(0.0, 0.0, 0.0, 0.0, 0.0, 0.0, 0.0, None)

  function Get(m: Measurements, field: MeasurementField): real
  {
    match field
    case Chest => m.chest
    case Neck => m.neck
    case Shoulders => m.shoulders
    case Sleeves => m.sleeves
    case TopLength => m.topLength
    case BottomLength => m.bottomLength
    case Waist => m.waist
  }

  /** handleMeasurementChange: one field takes the new number, every other
      field and the file flag keep theirs. */
  function Set(m: Measurements, field: MeasurementField, value: real): (r: Measurements)
    ensures Get(r, field) == value
    ensures forall g :: g != field ==> Get(r, g) == Get(m, g)
    ensures r.hasExistingFile == m.hasExistingFile
  {
    match field
    case Chest => m.(chest := value)
    case Neck => m.(neck := value)
    case Shoulders => m.(shoulders := value)
    case Sleeves => m.(sleeves := value)
    case TopLength => m.(topLength := value)
    case BottomLength => m.(bottomLength := value)
    case Waist => m.(waist := value)
  }

  /** Two measurement records are equal when their fields and flags are. */
  lemma SameFieldsSameMeasurements(a: Measurements, b: Measurements)
    requires forall g :: Get(a, g) == Get(b, g)
    requires a.hasExistingFile == b.hasExistingFile
    ensures a == b
  {
    assert Get(a, Chest) == Get(b, Chest) && Get(a, Neck) == Get(b, Neck);
    assert Get(a, Shoulders) == Get(b, Shoulders) && Get(a, Sleeves) == Get(b, Sleeves);
    assert Get(a, TopLength) == Get(b, TopLength) && Get(a, BottomLength) == Get(b, BottomLength);
    assert Get(a, Waist) == Get(b, Waist);
  }

  /** Typing back the value a field already holds changes nothing. */
  lemma SetCurrentValueIsNoChange(m: Measurements, field: MeasurementField)
    ensures Set(m, field, Get(m, field)) == m
  {
    SameFieldsSameMeasurements(Set(m, field, Get(m, field)), m);
  }

  /** Edits of two different fields commute. */
  lemma SetDistinctFieldsCommute(m: Measurements, f: MeasurementField, g: MeasurementField, x: real, y: real)
    requires f != g
    ensures Set(Set(m, f, x), g, y) == Set(Set(m, g, y), f, x)
  {
    SameFieldsSameMeasurements(Set(Set(m, f, x), g, y), Set(Set(m, g, y), f, x));
  }

  /** A file as the panel sees it: its id, MIME type and size in bytes. */
  datatype FileRecord = FileRecord(id: string, mimeType: string, size: int)

  const MaxUploadBytes := 5 * 1024 * 1024

  /** A selected file goes into the upload when its type matches `image`
      or `application/pdf` and it is at most 5 MB. */
  predicate Accepted(f: FileRecord)
  {
    (Contains(f.mimeType, "image") || Contains(f.mimeType, "application/pdf")) && f.size <= MaxUploadBytes
  }

  /** The `forEach` over the selection: rejected files are skipped, the
      rest are added in selection order. */
  method CollectUploads(selected: seq<FileRecord>) returns (formFiles: seq<FileRecord>)
    ensures formFiles == Filter(selected, Accepted)
    ensures forall f :: f in formFiles <==> f in selected && Accepted(f)
  {
    formFiles := [];
    var i := 0;
    while i < |selected|
      invariant 0 <= i <= |selected|
      invariant formFiles == Filter(selected[..i], Accepted)
    {
      FilterAppend(selected[..i], [selected[i]], Accepted);
      assert selected[..i + 1] == selected[..i] + [selected[i]];
      if Accepted(selected[i]) {
        formFiles := formFiles + [selected[i]];
      }
      i := i + 1;
    }
    assert selected[..i] == selected;
  }

  /** The accepted files keep their selection order. */
  lemma UploadKeepsSelectionOrder(selected: seq<FileRecord>)
    ensures IsSubsequence(Filter(selected, Accepted), selected)
  {
    FilterIsSubsequence(selected, Accepted);
  }

  /** The list after `removeFile(id)`. */
  function WithoutFile(files: seq<FileRecord>, id: string): (r: seq<FileRecord>)
    ensures forall f :: f in r <==> f in files && f.id != id
    ensures |r| <= |files|
  {
    Filter(files, (f: FileRecord) => f.id != id)
  }

  /** Removal keeps the other files in order, and removing an id that is
      not on the list changes nothing. */
  lemma WithoutFileKeepsOrder(files: seq<FileRecord>, id: string)
    ensures IsSubsequence(WithoutFile(files, id), files)
    ensures (forall i :: 0 <= i < |files| ==> files[i].id != id) ==> WithoutFile(files, id) == files
  {
    FilterIsSubsequence(files, (f: FileRecord) => f.id != id);
    if forall i :: 0 <= i < |files| ==> files[i].id != id {
      FilterKeepsAll(files, (f: FileRecord) => f.id != id);
    }
  }

  /** What the upload request brought back: nothing (the request failed)
      or a reply with its success flag, the stored files and, when the
      server read the sheet, the measurements it extracted. */
  datatype UploadReply =
    | RequestFailed
    | Replied(success: bool, files: seq<FileRecord>, extracted: Option<Measurements>)

  /** A saved customer's profile as fetched when the customer is chosen:
      the saved measurements, if any, and the stored files. */
  datatype CustomerProfile = CustomerProfile(measurements: Option<Measurements>, files: seq<FileRecord>)

  class MeasurementPanel {
    var measurements: Measurements
    var uploadedFiles: seq<FileRecord>
    var hasUploadedFile: bool

    constructor ()
      ensures measurements == BlankMeasurements
      ensures uploadedFiles == [] && !hasUploadedFile
    {
      measurements := BlankMeasurements;
      uploadedFiles := [];
      hasUploadedFile := false;
    }

    method HandleMeasurementChange(field: MeasurementField, value: real)
      modifies this
      ensures measurements == Set(old(measurements), field, value)
      ensures uploadedFiles == old(uploadedFiles) && hasUploadedFile == old(hasUploadedFile)
    {
      measurements := Set(measurements, field, value);
    }

    /** handleFileUpload: an empty selection does nothing and sends
        nothing; otherwise the accepted files are sent (possibly none),
        and a successful reply appends the stored files, raises the flag
        and, when present, replaces the measurements wholesale. */
    method HandleFileUpload(selected: seq<FileRecord>, reply: UploadReply) returns (sent: Option<seq<FileRecord>>)
      modifies this
      ensures selected == [] ==> sent == None
      ensures selected != [] ==> sent == Some(Filter(selected, Accepted))
      ensures if selected != [] && reply.Replied? && reply.success then
                && uploadedFiles == old(uploadedFiles) + reply.files
                && hasUploadedFile
                && measurements == (if reply.extracted.Some? then reply.extracted.value else old(measurements))
              else
                && uploadedFiles == old(uploadedFiles)
                && hasUploadedFile == old(hasUploadedFile)
                && measurements == old(measurements)
    {
      if selected == [] {
        return None;
      }
      var formFiles := CollectUploads(selected);
      sent := Some(formFiles);
      if reply.Replied? && reply.success {
        uploadedFiles := uploadedFiles + reply.files;
        hasUploadedFile := true;
        if reply.extracted.Some? {
          measurements := reply.extracted.value;
        }
      }
    }

    /** removeFile: after a successful delete the file leaves the list, and
        the flag is cleared when the list held at most one file before. */
    method RemoveFile(id: string, deleted: bool)
      modifies this
      ensures deleted ==> uploadedFiles == WithoutFile(old(uploadedFiles), id)
      ensures deleted ==> hasUploadedFile == (old(hasUploadedFile) && |old(uploadedFiles)| > 1)
      ensures !deleted ==> uploadedFiles == old(uploadedFiles) && hasUploadedFile == old(hasUploadedFile)
      ensures measurements == old(measurements)
    {
      if deleted {
        var before := |uploadedFiles|;
        uploadedFiles := WithoutFile(uploadedFiles, id);
        if before <= 1 {
          hasUploadedFile := false;
        }
      }
    }

    /** fetchCustomerDetails: saved measurements replace the current ones;
        a non-empty file list replaces the current list and raises the
        flag, an empty one only lowers the flag. A failed fetch changes
        nothing. */
    method LoadCustomerProfile(profile: Option<CustomerProfile>)
      modifies this
      ensures profile.None? ==> measurements == old(measurements) && uploadedFiles == old(uploadedFiles)
                                && hasUploadedFile == old(hasUploadedFile)
      ensures profile.Some? ==>
                && measurements == (if profile.value.measurements.Some? then profile.value.measurements.value
                                    else old(measurements))
                && uploadedFiles == (if |profile.value.files| > 0 then profile.value.files else old(uploadedFiles))
                && hasUploadedFile == (|profile.value.files| > 0)
    {
      if profile.Some? {
        if profile.value.measurements.Some? {
          measurements := profile.value.measurements.value;
        }
        if |profile.value.files| > 0 {
          uploadedFiles := profile.value.files;
          hasUploadedFile := true;
        } else {
          hasUploadedFile := false;
        }
      }
    }
  }
}
