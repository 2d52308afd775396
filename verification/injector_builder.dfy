/**
 * DicomInjectorBuilder: an accumulator of injectors composed in call order (Function.andThen),
 * handed out by build, which resets the accumulator to the identity. A composed injector is the
 * sequence of its steps; Run applies them first to last.
 */
module InjectorBuilder {
  import opened Wrappers
  import opened Dicom
  import opened PatientInjector
  import opened CTClassInjector
  import opened MRClassInjector

  /** GeneralClinicDicomInjector: Manufacturer and InstitutionName, both LO. */
  datatype GeneralClinicDicomInjector = GeneralClinicDicomInjector(manufacturer: string, institutionName: string)
  {
    function Inject(r: Record): (r': Record)
      ensures Holds(r', Manufacturer, Str(LO, manufacturer)) && Holds(r', InstitutionName, Str(LO, institutionName))
      ensures AgreeOutside(r, r', {Manufacturer, InstitutionName})
    {
      r[Manufacturer := Str(LO, manufacturer)][InstitutionName := Str(LO, institutionName)]
    }

    method Apply(obj: DicomObject) returns (result: DicomObject)
      modifies obj
      ensures result == obj && obj.elements == Inject(old(obj.elements))
    {
      obj.Put(Manufacturer, Str(LO, manufacturer));
      obj.Put(InstitutionName, Str(LO, institutionName));
      result := obj;
    }
  }

  /**
   * BodyPartDicomInjector: BodyPartExamined (CS) when a body part is given. Its source is not
   * part of this model; for a null body part (None) it is assumed to put nothing.
   */
  datatype BodyPartDicomInjector = BodyPartDicomInjector(bodyPart: Option<string>)
  {
    function Inject(r: Record): (r': Record)
      ensures bodyPart.Some? ==> Holds(r', BodyPartExamined, Str(CS, bodyPart.value))
      ensures AgreeOutside(r, r', if bodyPart.Some? then {BodyPartExamined} else {})
    {
      if bodyPart.Some? then r[BodyPartExamined := Str(CS, bodyPart.value)] else r
    }

    method Apply(obj: DicomObject) returns (result: DicomObject)
      modifies obj
      ensures result == obj && obj.elements == Inject(old(obj.elements))
    {
      if bodyPart.Some? {
        obj.Put(BodyPartExamined, Str(CS, bodyPart.value));
      }
      result := obj;
    }
  }

  /** One step the builder can append. */
  datatype Injector =
    | PatientStep(patient: PatientDicomInjector)
    | ClinicStep(clinic: GeneralClinicDicomInjector)
    | BodyPartStep(part: BodyPartDicomInjector)
    | CTStep(ct: CTClassDicomInjector)
    | MRStep(mr: MRClassDicomInjector)
    | ModalityStep(modality: string)   // the lambda of modality's default branch
  {
    function Inject(r: Record): Record
    {
      match this
      case PatientStep(p) => p.Inject(r)
      case ClinicStep(c) => c.Inject(r)
      case BodyPartStep(b) => b.Inject(r)
      case CTStep(c) => c.Inject(r)
      case MRStep(m) => m.Inject(r)
      case ModalityStep(m) => r[Modality := Str(CS, m)]
    }
  }

  /** The record after every step, the first step applied first. */
  function Run(steps: seq<Injector>, r: Record): Record
    decreases |steps|
  {
    if steps == [] then r else Run(steps[1..], steps[0].Inject(r))
  }

  /** Appending steps applies them after the ones already there: andThen is composition in call order. */
  lemma {:induction false} RunAppend(first: seq<Injector>, second: seq<Injector>, r: Record)
    ensures Run(first + second, r) == Run(second, Run(first, r))
    decreases |first|
  {
    if first != [] {
      assert (first + second)[0] == first[0];
      assert (first + second)[1..] == first[1..] + second;
      RunAppend(first[1..], second, first[0].Inject(r));
    } else {
      assert first + second == second;
    }
  }

  /** One step, applied to the record in place. */
  method ApplyStep(step: Injector, obj: DicomObject)
    modifies obj
    ensures obj.elements == step.Inject(old(obj.elements))
  {
    match step
    case PatientStep(p) => var _ := p.Apply(obj);
    case ClinicStep(c) => var _ := c.Apply(obj);
    case BodyPartStep(b) => var _ := b.Apply(obj);
    case CTStep(c) => var _ := c.Apply(obj);
    case MRStep(m) => var _ := m.Apply(obj);
    case ModalityStep(m) => obj.Put(Modality, Str(CS, m));
  }

  /** The built injector's apply: each step in turn on the same record, which it returns. */
  method ApplyAll(steps: seq<Injector>, obj: DicomObject) returns (result: DicomObject)
    modifies obj
    ensures result == obj && obj.elements == Run(steps, old(obj.elements))
    decreases |steps|
  {
    if steps != [] {
      ApplyStep(steps[0], obj);
      result := ApplyAll(steps[1..], obj);
    } else {
      result := obj;
    }
  }

  /** The step modality(m) appends for a non-null m; the match is case-sensitive. */
  function ModalityInjector(modality: string): Injector
  {
    if modality == "CT" then CTStep(DefaultCT)
    else if modality == "MR" then MRStep(DefaultMR)
    else if modality == "MRT1" then MRStep(MROfType(T1_MAP))
    else if modality == "MRT2" then MRStep(MROfType(T2_MAP))
    else ModalityStep(modality)
  }

  /** modality("CT"): the default CT class injector, an axial CT image. */
  lemma ModalityCT(r: Record)
    ensures var r' := ModalityInjector("CT").Inject(r);
      && Holds(r', Modality, Str(CS, "CT")) && Holds(r', SOPClassUID, Str(UI, CTSopClassUid))
      && Holds(r', ImageType, Str(CS, "AXIAL"))
  {
    assert ModalityInjector("CT") == CTStep(DefaultCT);
    CTInjectFixed(DefaultCT, r);
  }

  /** modality("MR"), "MRT1" and "MRT2": Modality MR, the MR SOP class, and image type OTHER, T1 MAP or T2 MAP. */
  lemma ModalityMR(modality: string, r: Record)
    requires modality == "MR" || modality == "MRT1" || modality == "MRT2"
    ensures var r' := ModalityInjector(modality).Inject(r);
      && Holds(r', Modality, Str(CS, "MR")) && Holds(r', SOPClassUID, Str(UI, MRSopClassUid))
      && Holds(r', ImageType, Str(CS, if modality == "MR" then "OTHER" else if modality == "MRT1" then "T1 MAP" else "T2 MAP"))
  {
    var imageType := if modality == "MR" then OTHER else if modality == "MRT1" then T1_MAP else T2_MAP;
    assert ModalityInjector(modality) == MRStep(MROfType(imageType));
    MRInjectFixed(MROfType(imageType), r);
    MapDicomValues();
    assert OTHER.DicomValue() == "OTHER";
  }

  /** Any other code, in whatever case, sets Modality to exactly that string and nothing else. */
  lemma ModalityOther(modality: string, r: Record)
    requires modality != "CT" && modality != "MR" && modality != "MRT1" && modality != "MRT2"
    ensures ModalityInjector(modality).Inject(r) == r[Modality := Str(CS, modality)]
  {
  }

  class DicomInjectorBuilder {
    var fn: seq<Injector>

    /** A fresh builder holds the identity. */
    constructor ()
      ensures fn == []
    {
      fn := [];
    }

    method Patient(patientName: Option<string>, patientId: Option<string>)
      modifies this
      ensures fn == old(fn) + [PatientStep(PatientDicomInjector(patientName, patientId))]
    {
      fn := fn + [PatientStep(PatientDicomInjector(patientName, patientId))];
    }

    method GeneralClinic(manufacturer: string, institutionName: string)
      modifies this
      ensures fn == old(fn) + [ClinicStep(GeneralClinicDicomInjector(manufacturer, institutionName))]
    {
      fn := fn + [ClinicStep(GeneralClinicDicomInjector(manufacturer, institutionName))];
    }

    method CTOf(imageType: CTImageType, photoInterpret: Photometric)
      modifies this
      ensures fn == old(fn) + [CTStep(CTClassDicomInjector(imageType, photoInterpret))]
    {
      fn := fn + [CTStep(CTClassDicomInjector(imageType, photoInterpret))];
    }

    method CT()
      modifies this
      ensures fn == old(fn) + [CTStep(DefaultCT)]
    {
      fn := fn + [CTStep(DefaultCT)];
    }

    method MR()
      modifies this
      ensures fn == old(fn) + [MRStep(DefaultMR)]
    {
      fn := fn + [MRStep(DefaultMR)];
    }

    /** modality(null) throws NullPointerException("modality") before touching the accumulator. */
    method Modality(modality: Option<string>) returns (thrown: Option<string>)
      modifies this
      ensures modality.None? ==> thrown == Some("modality") && fn == old(fn)
      ensures modality.Some? ==> thrown.None? && fn == old(fn) + [ModalityInjector(modality.value)]
    {
      if modality.None? {
        return Some("modality");
      }
      var m := modality.value;
      thrown := None;
      if m == "CT" {
        CT();
      } else if m == "MR" {
        MR();
      } else if m == "MRT1" {
        fn := fn + [MRStep(MROfType(T1_MAP))];
      } else if m == "MRT2" {
        fn := fn + [MRStep(MROfType(T2_MAP))];
      } else {
        fn := fn + [ModalityStep(m)];
      }
    }

    method BodyPart(bodyPart: Option<string>)
      modifies this
      ensures fn == old(fn) + [BodyPartStep(BodyPartDicomInjector(bodyPart))]
    {
      fn := fn + [BodyPartStep(BodyPartDicomInjector(bodyPart))];
    }

    /** The composition so far, as a value later steps cannot reach; the builder starts over. */
    method Build() returns (injector: seq<Injector>)
      modifies this
      ensures injector == old(fn) && fn == []
    {
      injector := fn;
      fn := [];
    }
  }

  /** The chain patient, clinic, body part, modality. */
  function ClinicalChain(patientName: string, patientId: string, manufacturer: string, institutionName: string,
                         bodyPart: Option<string>, modality: string): seq<Injector>
  {
    [PatientStep(PatientDicomInjector(Some(patientName), Some(patientId))),
     ClinicStep(GeneralClinicDicomInjector(manufacturer, institutionName)),
     BodyPartStep(BodyPartDicomInjector(bodyPart)),
     ModalityInjector(modality)]
  }

  /** The record before the modality step of ClinicalChain. */
  function BeforeModality(patientName: string, patientId: string, manufacturer: string, institutionName: string,
                          bodyPart: Option<string>, r: Record): (r': Record)
    ensures Holds(r', PatientName, Str(PN, patientName)) && Holds(r', PatientID, Str(LO, patientId))
    ensures Holds(r', Manufacturer, Str(LO, manufacturer)) && Holds(r', InstitutionName, Str(LO, institutionName))
    ensures bodyPart.Some? ==> Holds(r', BodyPartExamined, Str(CS, bodyPart.value))
  {
    var r1 := PatientDicomInjector(Some(patientName), Some(patientId)).Inject(r);
    var r2 := GeneralClinicDicomInjector(manufacturer, institutionName).Inject(r1);
    BodyPartDicomInjector(bodyPart).Inject(r2)
  }

  /** ClinicalChain runs its four steps in order. */
  lemma ClinicalChainSteps(patientName: string, patientId: string, manufacturer: string, institutionName: string,
                           bodyPart: Option<string>, modality: string, r: Record)
    ensures Run(ClinicalChain(patientName, patientId, manufacturer, institutionName, bodyPart, modality), r)
         == ModalityInjector(modality).Inject(BeforeModality(patientName, patientId, manufacturer, institutionName, bodyPart, r))
  {
    var chain := ClinicalChain(patientName, patientId, manufacturer, institutionName, bodyPart, modality);
    var r1 := chain[0].Inject(r);
    var r2 := chain[1].Inject(r1);
    var r3 := chain[2].Inject(r2);
    assert Run(chain, r) == Run(chain[1..], r1);
    assert Run(chain[1..], r1) == Run(chain[2..], r2) by { assert chain[1..][1..] == chain[2..]; }
    assert Run(chain[2..], r2) == Run(chain[3..], r3) by { assert chain[2..][1..] == chain[3..]; }
    assert Run(chain[3..], r3) == chain[3].Inject(r3) by { assert chain[3..][1..] == []; }
  }

  /**
   * Patient, clinic and body part followed by modality CT: the CT class attributes, and the
   * patient name, manufacturer and body part survive the CT step.
   */
  lemma ClinicalChainCT(patientName: string, patientId: string, manufacturer: string, institutionName: string,
                        bodyPart: Option<string>, r: Record)
    ensures var r' := Run(ClinicalChain(patientName, patientId, manufacturer, institutionName, bodyPart, "CT"), r);
      && Holds(r', Modality, Str(CS, "CT")) && Holds(r', SOPClassUID, Str(UI, CTSopClassUid))
      && Holds(r', ImageType, Str(CS, "AXIAL")) && Holds(r', PhotometricInterpretation, Str(CS, "MONOCHROME2"))
      && Holds(r', PatientName, Str(PN, patientName)) && Holds(r', Manufacturer, Str(LO, manufacturer))
      && (bodyPart.Some? ==> Holds(r', BodyPartExamined, Str(CS, bodyPart.value)))
  {
    ClinicalChainSteps(patientName, patientId, manufacturer, institutionName, bodyPart, "CT", r);
    var before := BeforeModality(patientName, patientId, manufacturer, institutionName, bodyPart, r);
    assert ModalityInjector("CT") == CTStep(DefaultCT);
    DefaultCTKeeps(before, patientName, manufacturer, bodyPart);
  }

  /** The default CT step on a record that already holds a patient name, manufacturer and body part. */
  lemma DefaultCTKeeps(before: Record, patientName: string, manufacturer: string, bodyPart: Option<string>)
    requires Holds(before, PatientName, Str(PN, patientName)) && Holds(before, Manufacturer, Str(LO, manufacturer))
    requires bodyPart.Some? ==> Holds(before, BodyPartExamined, Str(CS, bodyPart.value))
    ensures var r' := DefaultCT.Inject(before);
      && Holds(r', Modality, Str(CS, "CT")) && Holds(r', SOPClassUID, Str(UI, CTSopClassUid))
      && Holds(r', ImageType, Str(CS, "AXIAL")) && Holds(r', PhotometricInterpretation, Str(CS, "MONOCHROME2"))
      && Holds(r', PatientName, Str(PN, patientName)) && Holds(r', Manufacturer, Str(LO, manufacturer))
      && (bodyPart.Some? ==> Holds(r', BodyPartExamined, Str(CS, bodyPart.value)))
  {
    CTInjectFixed(DefaultCT, before);
    assert PatientName !in CTTags && Manufacturer !in CTTags && BodyPartExamined !in CTTags;
  }

  /**
   * Patient and clinic followed by modality MR: the MR class attributes with the default
   * research-mode scanning sequence, and the patient name and manufacturer survive the MR step.
   */
  lemma ClinicalChainMR(patientName: string, patientId: string, manufacturer: string, institutionName: string,
                        bodyPart: Option<string>, r: Record)
    ensures var r' := Run(ClinicalChain(patientName, patientId, manufacturer, institutionName, bodyPart, "MR"), r);
      && Holds(r', Modality, Str(CS, "MR")) && Holds(r', SOPClassUID, Str(UI, MRSopClassUid))
      && Holds(r', ImageType, Str(CS, "OTHER")) && Holds(r', PhotometricInterpretation, Str(CS, "MONOCHROME2"))
      && Holds(r', ScanningSequence, Element(CS, Strings(["RM"])))
      && Holds(r', PatientName, Str(PN, patientName)) && Holds(r', Manufacturer, Str(LO, manufacturer))
  {
    ClinicalChainSteps(patientName, patientId, manufacturer, institutionName, bodyPart, "MR", r);
    var before := BeforeModality(patientName, patientId, manufacturer, institutionName, bodyPart, r);
    assert ModalityInjector("MR") == MRStep(DefaultMR);
    DefaultMRKeeps(before, patientName, manufacturer);
  }

  /** The default MR step on a record that already holds a patient name and manufacturer. */
  lemma DefaultMRKeeps(before: Record, patientName: string, manufacturer: string)
    requires Holds(before, PatientName, Str(PN, patientName)) && Holds(before, Manufacturer, Str(LO, manufacturer))
    ensures var r' := DefaultMR.Inject(before);
      && Holds(r', Modality, Str(CS, "MR")) && Holds(r', SOPClassUID, Str(UI, MRSopClassUid))
      && Holds(r', ImageType, Str(CS, "OTHER")) && Holds(r', PhotometricInterpretation, Str(CS, "MONOCHROME2"))
      && Holds(r', ScanningSequence, Element(CS, Strings(["RM"])))
      && Holds(r', PatientName, Str(PN, patientName)) && Holds(r', Manufacturer, Str(LO, manufacturer))
  {
    MRInjectFixed(DefaultMR, before);
    OutsideMRTags();
    MRKeeps(DefaultMR, before, PatientName);
    MRKeeps(DefaultMR, before, Manufacturer);
    assert OTHER.DicomValue() == "OTHER";
    assert Names([RM], ScanningSequenceName) == ["RM"];
  }

  lemma OutsideMRTags()
    ensures PatientName !in MRTags && Manufacturer !in MRTags
  {
  }

  /** The MR step keeps every attribute outside the ones it writes. */
  lemma MRKeeps(m: MRClassDicomInjector, r: Record, t: Tag)
    requires t !in MRTags && t in r
    ensures Holds(m.Inject(r), t, r[t])
  {
  }
}
