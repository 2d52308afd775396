/** PatientDicomInjector: PatientName and PatientID, each only when given. */
module PatientInjector {
  import opened Wrappers
  import opened Dicom

  const PatientTags: set<Tag> := {PatientName, PatientID}

  /** Both fields may be null (None). */
  datatype PatientDicomInjector = PatientDicomInjector(patientName: Option<string>, patientId: Option<string>)
  {
    function Inject(r: Record): (r': Record)
      ensures patientName.Some? ==> Holds(r', PatientName, Str(PN, patientName.value))
      ensures patientId.Some? ==> Holds(r', PatientID, Str(LO, patientId.value))
      ensures AgreeOutside(r, r', (if patientName.Some? then {PatientName} else {}) + (if patientId.Some? then {PatientID} else {}))
    {
      var r1 := if patientName.Some? then r[PatientName := Str(PN, patientName.value)] else r;
      if patientId.Some? then r1[PatientID := Str(LO, patientId.value)] else r1
    }

    /** apply: updates the record in place and returns that same record. */
    method Apply(obj: DicomObject) returns (result: DicomObject)
      modifies obj
      ensures result == obj && obj.elements == Inject(old(obj.elements))
    {
      if patientName.Some? {
        obj.Put(PatientName, Str(PN, patientName.value));
      }
      if patientId.Some? {
        obj.Put(PatientID, Str(LO, patientId.value));
      }
      result := obj;
    }
  }

  /** With both fields null the injector leaves every record as it is. */
  lemma PatientNullIsIdentity(r: Record)
    ensures PatientDicomInjector(None, None).Inject(r) == r
  {
  }

  /** Applying the injector twice gives the record applying it once does. */
  lemma PatientIdempotent(p: PatientDicomInjector, r: Record)
    ensures p.Inject(p.Inject(r)) == p.Inject(r)
  {
  }
}
