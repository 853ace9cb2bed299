/** The decision logic of the "add medical record" form: the required-field
    check, the record it sends to `POST /api/records/add`, the state its
    submit handler leaves behind, and the reset of the form. */
module AddHistory {
  import opened JsValues
  import AuthService

  datatype FormData = FormData(
    healthId: string,
    treatmentType: string,
    diagnosis: string,
    prescription: string,
    notes: string,
    hospitalName: string,
    doctorName: string,
    doctorPhone: string,
    date: string,
    symptoms: string,
    vitals: string,
    labTests: string,
    followUp: string)

  /** The form's three tabs: consultation, lab test and prescription. */
  datatype Tab = ConsultationTab | LabTab | PrescriptionTab

  /** The form's initial and reset contents; `today` is the date part of
      `new Date().toISOString()`. */
  function EmptyForm(today: string): (f: FormData)
  {
    FormData("", "consultation", "", "", "", "", "", "", today, "", "", "", "")
  }

  /** Health ID, diagnosis, hospital and doctor are all filled in. */
  predicate RequiredFilled(f: FormData)
  {
    f.healthId != "" && f.diagnosis != "" && f.hospitalName != "" && f.doctorName != ""
  }

  /** The save button's `disabled`: while saving, or while a required field
      is empty; so an enabled button means submit passes its own check. */
  function SaveDisabled(isSaving: bool, f: FormData): (disabled: bool)
    ensures !disabled <==> !isSaving && RequiredFilled(f)
    ensures !disabled ==> f.healthId != "" && f.diagnosis != "" && f.hospitalName != "" && f.doctorName != ""
  {
    isSaving || f.healthId == "" || f.diagnosis == "" || f.hospitalName == "" || f.doctorName == ""
  }

  /** The form's field names. */
  const FormKeys: set<string> := {
    "healthId", "treatmentType", "diagnosis", "prescription", "notes", "hospitalName",
    "doctorName", "doctorPhone", "date", "symptoms", "vitals", "labTests", "followUp"}

  /** The three properties `handleSubmit` adds are not form fields. */
  lemma AddedKeysAreNew()
    ensures "treatment" !in FormKeys && "status" !in FormKeys && "id" !in FormKeys
  {
  }

  /** The form field stored under property `k`. */
  function Field(f: FormData, k: string): (v: Value)
  {
    match k
    case "healthId" => Str(f.healthId)
    case "treatmentType" => Str(f.treatmentType)
    case "diagnosis" => Str(f.diagnosis)
    case "prescription" => Str(f.prescription)
    case "notes" => Str(f.notes)
    case "hospitalName" => Str(f.hospitalName)
    case "doctorName" => Str(f.doctorName)
    case "doctorPhone" => Str(f.doctorPhone)
    case "date" => Str(f.date)
    case "symptoms" => Str(f.symptoms)
    case "vitals" => Str(f.vitals)
    case "labTests" => Str(f.labTests)
    case "followUp" => Str(f.followUp)
    case _ => Undefined
  }

  /** The form's fields as a record document, one property per field. */
  function FormDoc(f: FormData): (d: Doc)
    ensures d.Keys == FormKeys
  {
    map k | k in FormKeys :: Field(f, k)
  }

  function TreatmentLabel(tab: Tab): (name: string)
  {
    match tab
    case ConsultationTab => "Consultation"
    case LabTab => "Lab Test"
    case PrescriptionTab => "Prescription"
  }

  /** The record the form sends: every form field unchanged, plus the tab's treatment label, the status
      and an id beginning with "R". */
  function BuildRecordData(f: FormData, tab: Tab, idStamp: string): (r: Doc)
    ensures r.Keys == FormKeys + {"treatment", "status", "id"}
    ensures forall k :: k in FormKeys ==> r[k] == FormDoc(f)[k]
    ensures r["healthId"] == Str(f.healthId) && r["diagnosis"] == Str(f.diagnosis)
    ensures r["status"] == Str("completed")
    ensures r["id"] == Str("R" + idStamp) && StartsWith(r["id"].s, "R")
    ensures tab == ConsultationTab ==> r["treatment"] == Str("Consultation")
    ensures tab == LabTab ==> r["treatment"] == Str("Lab Test")
    ensures tab == PrescriptionTab ==> r["treatment"] == Str("Prescription")
  {
    AddedKeysAreNew();
    FormDoc(f) + map["treatment" := Str(TreatmentLabel(tab)), "status" := Str("completed"), "id" := Str("R" + idStamp)]
  }

  /** The form's record keeps its own "R…" id once `addMedicalRecord` stores
      it, because the caller's `id` wins over the generated "record_…" one. */
  lemma StoredRecordKeepsFormId(f: FormData, tab: Tab, idStamp: string, email: string, recordStamp: string, now: string)
    ensures AuthService.NewMedicalRecord(email, BuildRecordData(f, tab, idStamp), recordStamp, now)["id"]
            == Str("R" + idStamp)
  {
  }

  /** What `apiClient.addRecord` resolved to: the decoded reply, or a thrown
      error (network failure, unreadable body). */
  datatype ApiReply = Replied(success: bool, message: Option<string>) | Threw

  class AddHistoryForm {
    var activeTab: Tab
    var isSaving: bool
    var submitted: bool
    var submitError: string
    var formData: FormData

    constructor (today: string)
      ensures activeTab == ConsultationTab && formData == EmptyForm(today)
      ensures !isSaving && !submitted && submitError == ""
    {
      activeTab := ConsultationTab;
      isSaving := false;
      submitted := false;
      submitError := "";
      formData := EmptyForm(today);
    }

    /** `handleSubmit`, with the API's answer as a parameter. `sent` is the
        record handed to the API (none when the check fails) and `added` the
        one handed to `onRecordAdd`, which is that same record on success. */
    method Submit(idStamp: string, reply: ApiReply, hasOnRecordAdd: bool)
      returns (sent: Option<Doc>, added: Option<Doc>)
      modifies this
      ensures formData == old(formData) && activeTab == old(activeTab)
      ensures !RequiredFilled(old(formData)) ==>
        && sent == None && added == None
        && submitError == "Please fill in all required fields"
        && isSaving == old(isSaving) && submitted == old(submitted)
      ensures RequiredFilled(old(formData)) ==>
        sent == Some(BuildRecordData(old(formData), old(activeTab), idStamp)) && !isSaving
      ensures added.Some? <==> RequiredFilled(old(formData)) && reply.Replied? && reply.success && hasOnRecordAdd
      ensures added.Some? ==> added == sent
      ensures RequiredFilled(old(formData)) && reply.Replied? && reply.success ==>
        submitted && submitError == ""
      ensures RequiredFilled(old(formData)) && reply.Replied? && !reply.success ==>
        && submitted == old(submitted)
        && submitError == if Present(reply.message) then reply.message.value else "Failed to save record"
      ensures RequiredFilled(old(formData)) && reply.Threw? ==>
        submitted == old(submitted) && submitError == "Failed to sync to cloud. Please try again."
    {
      if !RequiredFilled(formData) {
        submitError := "Please fill in all required fields";
        return None, None;
      }
      isSaving := true;
      submitError := "";
      var recordData := BuildRecordData(formData, activeTab, idStamp);
      sent, added := Some(recordData), None;
      match reply {
        case Replied(success, message) =>
          if success {
            submitted := true;
            if hasOnRecordAdd {
              added := Some(recordData);
            }
          } else {
            submitError := if Present(message) then message.value else "Failed to save record";
          }
        case Threw =>
          submitError := "Failed to sync to cloud. Please try again.";
      }
      isSaving := false;
    }

    /** The `setTimeout` callback after a successful save: hide the
        confirmation and empty the form. */
    method ResetAfterSaved(today: string)
      modifies this
      ensures !submitted && formData == EmptyForm(today)
      ensures isSaving == old(isSaving) && submitError == old(submitError) && activeTab == old(activeTab)
    {
      submitted := false;
      formData := EmptyForm(today);
    }

    /** `handleClear`: every text field empty, treatment type "consultation",
        the date today, and no error shown. */
    method Clear(today: string)
      modifies this
      ensures formData == EmptyForm(today) && submitError == ""
      ensures !RequiredFilled(formData) && SaveDisabled(isSaving, formData)
      ensures isSaving == old(isSaving) && submitted == old(submitted) && activeTab == old(activeTab)
    {
      formData := EmptyForm(today);
      submitError := "";
    }
  }
}
