/**
 * `src/components/PrescriptionForm.tsx`: the doctor's prescription form.
 * Its medication list is edited by computing a new list and storing it; the
 * list starts with one blank entry and removal never drops it below one.
 * Submitting appends the finished prescription to the same storage key the
 * record store reads, without an id.
 */
module PrescriptionForm {
  import opened Wrappers
  import opened Records
  import opened Database

  const BlankMedication := Medication("", "", "")

  /** The three keys `updateMedication` is called with. */
  datatype MedicationField = Name | Dosage | Instructions

  function FieldOf(m: Medication, f: MedicationField): string
  {
    match f
    case Name => m.name
    case Dosage => m.dosage
    case Instructions => m.instructions
  }

  /** `{ ...m, [field]: value }`. */
  function WithField(m: Medication, f: MedicationField, value: string): (r: Medication)
    ensures FieldOf(r, f) == value
    ensures forall g :: g != f ==> FieldOf(r, g) == FieldOf(m, g)
  {
    match f
    case Name => m.(name := value)
    case Dosage => m.(dosage := value)
    case Instructions => m.(instructions := value)
  }

  /** `addMedication`: one blank entry after the existing ones. */
  function MedicationsAdded(meds: seq<Medication>): (r: seq<Medication>)
    ensures |r| == |meds| + 1 && r[..|meds|] == meds && r[|meds|] == BlankMedication
  {
    meds + [BlankMedication]
  }

  /** `updateMedication(index, field, value)`: one field of one entry changes. */
  function MedicationUpdated(meds: seq<Medication>, index: nat, f: MedicationField, value: string): (r: seq<Medication>)
    requires index < |meds|
    ensures |r| == |meds|
    ensures FieldOf(r[index], f) == value
    ensures forall g :: g != f ==> FieldOf(r[index], g) == FieldOf(meds[index], g)
    ensures forall j :: 0 <= j < |meds| && j != index ==> r[j] == meds[j]
  {
    meds[index := WithField(meds[index], f, value)]
  }

  /** Where `splice(index, 1)` starts: a negative index counts from the end, and both ends are clamped. */
  function SpliceStart(index: int, len: nat): (k: nat)
    ensures k <= len
    ensures 0 <= index <= len ==> k == index
    ensures index < 0 && len + index >= 0 ==> k == len + index
  {
    if index < 0 then (if len + index < 0 then 0 else len + index)
    else if index > len then len
    else index
  }

  /**
   * `removeMedication(index)`: with more than one entry, `splice(index, 1)`
   * on a copy; with one entry (or none), nothing changes.
   */
  function MedicationRemoved(meds: seq<Medication>, index: int): (r: seq<Medication>)
    ensures |meds| <= 1 ==> r == meds
    ensures |meds| > 1 && 0 <= index < |meds| ==>
      |r| == |meds| - 1 && r[..index] == meds[..index] && r[index..] == meds[index + 1..]
    ensures |meds| > 1 && index >= |meds| ==> r == meds
    ensures |meds| >= 1 ==> |r| >= 1
  {
    if |meds| > 1 then
      var k := SpliceStart(index, |meds|);
      if k < |meds| then meds[..k] + meds[k + 1..] else meds
    else meds
  }

  /** Removing the entry just added gives back the list as it was. */
  lemma RemoveUndoesAdd(meds: seq<Medication>)
    requires |meds| >= 1
    ensures MedicationRemoved(MedicationsAdded(meds), |meds|) == meds
  {
    assert MedicationsAdded(meds)[..|meds|] == meds;
  }

  /** Writing a field back to its old value undoes an edit. */
  lemma UpdateUndoes(meds: seq<Medication>, index: nat, f: MedicationField, value: string)
    requires index < |meds|
    ensures MedicationUpdated(MedicationUpdated(meds, index, f, value), index, f, FieldOf(meds[index], f)) == meds
  {
    var once := MedicationUpdated(meds, index, f, value);
    var twice := MedicationUpdated(once, index, f, FieldOf(meds[index], f));
    assert twice[index] == meds[index] by {
      match f
      case Name =>
      case Dosage =>
      case Instructions =>
    }
  }

  /** The prescription `handleSubmit` stores: the form's contents plus who it is for and when. */
  function IssuedPrescription(patientName: string, patientId: Id, consultationId: Id, medications: seq<Medication>,
                     notes: string, diagnosis: string, followUpDate: string, signature: string,
                     issuedDate: string): (p: Prescription)
    ensures p.id == None && p.signature == signature
    ensures p.patientId == patientId && p.consultationId == consultationId && p.patientName == patientName
    ensures p.medications == medications && p.diagnosis == diagnosis && p.notes == notes
    ensures p.followUpDate == Some(followUpDate) && p.issuedDate == issuedDate
  {
    Prescription(None, consultationId, patientId, patientName, diagnosis, medications, notes,
      Some(followUpDate), issuedDate, signature)
  }

  class PrescriptionFormState {
    const db: Store
    const patientName: string
    const patientId: Id
    const consultationId: Id
    var signature: string
    var medications: seq<Medication>
    var notes: string
    var diagnosis: string
    var followUpDate: string
    /** The prescriptions handed to `onComplete`, in order. */
    var completed: seq<Prescription>

    /** The form always lists at least one medication. */
    predicate Valid()
      reads this
    {
      |medications| >= 1
    }

    constructor (db: Store, patientName: string, patientId: Id, consultationId: Id)
      ensures Valid()
      ensures this.db == db && this.patientName == patientName
      ensures this.patientId == patientId && this.consultationId == consultationId
      ensures signature == "" && medications == [BlankMedication]
      ensures notes == "" && diagnosis == "" && followUpDate == "" && completed == []
    {
      this.db := db;
      this.patientName := patientName;
      this.patientId := patientId;
      this.consultationId := consultationId;
      signature := "";
      medications := [BlankMedication];
      notes := "";
      diagnosis := "";
      followUpDate := "";
      completed := [];
    }

    method AddMedication()
      requires Valid()
      modifies this`medications
      ensures Valid()
      ensures medications == MedicationsAdded(old(medications))
    {
      medications := MedicationsAdded(medications);
    }

    method UpdateMedication(index: nat, f: MedicationField, value: string)
      requires Valid() && index < |medications|
      modifies this`medications
      ensures Valid()
      ensures medications == MedicationUpdated(old(medications), index, f, value)
    {
      medications := MedicationUpdated(medications, index, f, value);
    }

    method RemoveMedication(index: int)
      requires Valid()
      modifies this`medications
      ensures Valid()
      ensures medications == MedicationRemoved(old(medications), index)
    {
      medications := MedicationRemoved(medications, index);
    }

    /**
     * `handleSubmit`: refused while the signature is empty; otherwise the
     * prescription is appended to the stored ones and passed to `onComplete`.
     */
    method HandleSubmit(issuedDate: string) returns (submitted: bool)
      requires Valid()
      modifies db`prescriptions, this`completed
      ensures Valid()
      ensures submitted <==> signature != ""
      ensures !submitted ==> db.prescriptions == old(db.prescriptions) && completed == old(completed)
      ensures submitted ==>
        var p := IssuedPrescription(patientName, patientId, consultationId, medications, notes, diagnosis,
                           followUpDate, signature, issuedDate);
        db.prescriptions == old(db.prescriptions) + [p] && completed == old(completed) + [p]
    {
      if signature == "" {
        return false;
      }
      var p := IssuedPrescription(patientName, patientId, consultationId, medications, notes, diagnosis,
                         followUpDate, signature, issuedDate);
      db.prescriptions := db.prescriptions + [p];
      completed := completed + [p];
      submitted := true;
    }
  }
}
