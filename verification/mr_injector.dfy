/**
 * MRClassDicomInjector: the attributes of an MR Image Storage object (MR Image Module,
 * DICOM PS3.3 section C.8.3.1), with its Type 2 attributes left empty when unknown
 * (DICOM PS3.5 section 7.4).
 */
module MRClassInjector {
  import opened Dicom
  import JavaStrings

  const MRSopClassUid: string := "1.2.840.10008.5.1.4.1.1.4"

  datatype MRImageType =
    | DENSITY_MAP | DIFFUSION_MAP | IMAGE_ADDITION | MODULUS_SUBTRACT | MPR | OTHER
    | PHASE_MAP | PHASE_SUBTRACT | PROJECTION_IMAGE | T1_MAP | T2_MAP | VELOCITY_MAP
  {
    function Name(): string
    {
      match this
      case DENSITY_MAP => "DENSITY_MAP"
      case DIFFUSION_MAP => "DIFFUSION_MAP"
      case IMAGE_ADDITION => "IMAGE_ADDITION"
      case MODULUS_SUBTRACT => "MODULUS_SUBTRACT"
      case MPR => "MPR"
      case OTHER => "OTHER"
      case PHASE_MAP => "PHASE_MAP"
      case PHASE_SUBTRACT => "PHASE_SUBTRACT"
      case PROJECTION_IMAGE => "PROJECTION_IMAGE"
      case T1_MAP => "T1_MAP"
      case T2_MAP => "T2_MAP"
      case VELOCITY_MAP => "VELOCITY_MAP"
    }

    /** dicomValue(): the name with every '_' replaced by a space. */
    function DicomValue(): (v: string)
      ensures |v| == |Name()| && '_' !in v
      ensures forall i | 0 <= i < |v| :: v[i] == (if Name()[i] == '_' then ' ' else Name()[i])
    {
      JavaStrings.Replace(Name(), '_', ' ')
    }
  }

  datatype ScanningSequenceCode = SE | IR | GR | EP | RM
  {
    function Name(): string
    {
      match this
      case SE => "SE"
      case IR => "IR"
      case GR => "GR"
      case EP => "EP"
      case RM => "RM"
    }
  }

  datatype SequenceVariantCode = SK | MTC | SS | TRSS | SP | MP | OSP | NONE
  {
    function Name(): string
    {
      match this
      case SK => "SK"
      case MTC => "MTC"
      case SS => "SS"
      case TRSS => "TRSS"
      case SP => "SP"
      case MP => "MP"
      case OSP => "OSP"
      case NONE => "NONE"
    }
  }

  function ScanningSequenceName(s: ScanningSequenceCode): string { s.Name() }
  function SequenceVariantName(v: SequenceVariantCode): string { v.Name() }

  /** The names of a list of codes, one per element, in list order. */
  function Names<T>(elements: seq<T>, name: T -> string): (names: seq<string>)
    ensures |names| == |elements|
    ensures forall i | 0 <= i < |elements| :: names[i] == name(elements[i])
  {
    seq(|elements|, i requires 0 <= i < |elements| => name(elements[i]))
  }

  /** Every tag the MR injector may write. */
  const MRTags: set<Tag> :=
    {Modality, SOPClassUID, ImageType, PhotometricInterpretation, ScanningSequence, SequenceVariant,
     ScanOptions, MRAcquisitionType, RepetitionTime, EchoTime, EchoTrainLength, InversionTime}

  /**
   * The four final fields. The lists are Dafny sequences, values the caller cannot change
   * afterwards, which is what the constructor's defensive ArrayList copies achieve.
   */
  datatype MRClassDicomInjector = MRClassDicomInjector(
    imageType: MRImageType,
    photoInterpret: Photometric,
    scanningSequences: seq<ScanningSequenceCode>,
    sequenceVariants: seq<SequenceVariantCode>)
  {
    /**
     * apply: Modality, SOP class, image type, photometric interpretation and the two
     * multi-valued CS lists are always overwritten; six Type 2 attributes are created empty
     * only when absent.
     */
    function Inject(r: Record): (r': Record)
      ensures AgreeOutside(r, r', MRTags)
    {
      PlaceholdMR(Overwrite(r))
    }

    /** The unconditional puts of apply, in order. */
    function Overwrite(r: Record): (r': Record)
      ensures HoldsFixed(r')
      ensures AgreeOutside(r, r', MRTags - MRType2Tags)
    {
      r[Modality := Str(CS, "MR")][SOPClassUID := Str(UI, MRSopClassUid)]
       [ImageType := Str(CS, imageType.DicomValue())][PhotometricInterpretation := Str(CS, photoInterpret.Name())]
       [ScanningSequence := Element(CS, Strings(Names(scanningSequences, ScanningSequenceName)))]
       [SequenceVariant := Element(CS, Strings(Names(sequenceVariants, SequenceVariantName)))]
    }

    /** The record already holds everything the unconditional puts would write. */
    predicate HoldsFixed(r: Record)
    {
      && Holds(r, Modality, Str(CS, "MR")) && Holds(r, SOPClassUID, Str(UI, MRSopClassUid))
      && Holds(r, ImageType, Str(CS, imageType.DicomValue()))
      && Holds(r, PhotometricInterpretation, Str(CS, photoInterpret.Name()))
      && Holds(r, ScanningSequence, Element(CS, Strings(Names(scanningSequences, ScanningSequenceName))))
      && Holds(r, SequenceVariant, Element(CS, Strings(Names(sequenceVariants, SequenceVariantName))))
    }

    method Apply(obj: DicomObject) returns (result: DicomObject)
      modifies obj
      ensures result == obj && obj.elements == Inject(old(obj.elements))
    {
      obj.Put(Modality, Str(CS, "MR"));
      obj.Put(SOPClassUID, Str(UI, MRSopClassUid));
      obj.Put(ImageType, Str(CS, imageType.DicomValue()));
      obj.Put(PhotometricInterpretation, Str(CS, photoInterpret.Name()));
      PutCSElements(obj, ScanningSequence, scanningSequences, ScanningSequenceName);
      PutCSElements(obj, SequenceVariant, sequenceVariants, SequenceVariantName);
      PlaceholdElement(obj, ScanOptions, CS);
      PlaceholdElement(obj, MRAcquisitionType, CS);
      PlaceholdElement(obj, RepetitionTime, DS);
      PlaceholdElement(obj, EchoTime, DS);
      PlaceholdElement(obj, EchoTrainLength, US);
      PlaceholdElement(obj, InversionTime, DS);
      result := obj;
    }
  }

  /** The Type 2 attributes apply creates empty when absent. */
  const MRType2Tags: set<Tag> := {ScanOptions, MRAcquisitionType, RepetitionTime, EchoTime, EchoTrainLength, InversionTime}

  /** The placeholdElement calls of apply, in order. */
  function PlaceholdMR(r: Record): (r': Record)
    ensures forall t | t in r :: Holds(r', t, r[t])
    ensures Holds(r', ScanOptions, if ScanOptions in r then r[ScanOptions] else Element(CS, Empty))
    ensures Holds(r', MRAcquisitionType, if MRAcquisitionType in r then r[MRAcquisitionType] else Element(CS, Empty))
    ensures Holds(r', RepetitionTime, if RepetitionTime in r then r[RepetitionTime] else Element(DS, Empty))
    ensures Holds(r', EchoTime, if EchoTime in r then r[EchoTime] else Element(DS, Empty))
    ensures Holds(r', EchoTrainLength, if EchoTrainLength in r then r[EchoTrainLength] else Element(US, Empty))
    ensures Holds(r', InversionTime, if InversionTime in r then r[InversionTime] else Element(DS, Empty))
    ensures AgreeOutside(r, r', MRType2Tags)
  {
    PlaceholdTiming(PlaceholdAcquisition(r))
  }

  /** The first three placeholders: scan options, acquisition type, repetition time. */
  function PlaceholdAcquisition(r: Record): (r': Record)
    ensures forall t | t in r :: Holds(r', t, r[t])
    ensures Holds(r', ScanOptions, if ScanOptions in r then r[ScanOptions] else Element(CS, Empty))
    ensures Holds(r', MRAcquisitionType, if MRAcquisitionType in r then r[MRAcquisitionType] else Element(CS, Empty))
    ensures Holds(r', RepetitionTime, if RepetitionTime in r then r[RepetitionTime] else Element(DS, Empty))
    ensures AgreeOutside(r, r', {ScanOptions, MRAcquisitionType, RepetitionTime})
  {
    Placehold(Placehold(Placehold(r, ScanOptions, CS), MRAcquisitionType, CS), RepetitionTime, DS)
  }

  /** The last three placeholders: echo time, echo train length, inversion time. */
  function PlaceholdTiming(r: Record): (r': Record)
    ensures forall t | t in r :: Holds(r', t, r[t])
    ensures Holds(r', EchoTime, if EchoTime in r then r[EchoTime] else Element(DS, Empty))
    ensures Holds(r', EchoTrainLength, if EchoTrainLength in r then r[EchoTrainLength] else Element(US, Empty))
    ensures Holds(r', InversionTime, if InversionTime in r then r[InversionTime] else Element(DS, Empty))
    ensures AgreeOutside(r, r', {EchoTime, EchoTrainLength, InversionTime})
  {
    Placehold(Placehold(Placehold(r, EchoTime, DS), EchoTrainLength, US), InversionTime, DS)
  }

  /** putCSElements: the names of the codes, in order, as one multi-valued CS element. */
  method PutCSElements<T>(obj: DicomObject, tag: Tag, elements: seq<T>, name: T -> string)
    modifies obj
    ensures obj.elements == old(obj.elements)[tag := Element(CS, Strings(Names(elements, name)))]
  {
    var arr := new string[|elements|];
    var i := 0;
    while i < |elements|
      invariant 0 <= i <= |elements|
      invariant obj.elements == old(obj.elements)
      invariant forall k | 0 <= k < i :: arr[k] == name(elements[k])
    {
      arr[i] := name(elements[i]);
      i := i + 1;
    }
    assert arr[..] == Names(elements, name);
    obj.Put(tag, Element(CS, Strings(arr[..])));
  }

  /** The constructor taking one scanning sequence and one variant: two one-element lists. */
  function MRSingle(imageType: MRImageType, photoInterpret: Photometric, s: ScanningSequenceCode, v: SequenceVariantCode): (m: MRClassDicomInjector)
    ensures m.imageType == imageType && m.photoInterpret == photoInterpret
    ensures m.scanningSequences == [s] && m.sequenceVariants == [v]
  {
    MRClassDicomInjector(imageType, photoInterpret, [s], [v])
  }

  /** The constructor taking only the image type: MONOCHROME2, research mode, no variant. */
  function MROfType(imageType: MRImageType): (m: MRClassDicomInjector)
    ensures m.imageType == imageType
    ensures m.photoInterpret == MONOCHROME2 && m.scanningSequences == [RM] && m.sequenceVariants == [NONE]
  {
    MRSingle(imageType, MONOCHROME2, RM, NONE)
  }

  /** new MRClassDicomInjector(): type OTHER with the defaults of MROfType. */
  const DefaultMR: MRClassDicomInjector := MROfType(OTHER)

  /** What the MR injector always writes. */
  lemma MRInjectFixed(m: MRClassDicomInjector, r: Record)
    ensures m.HoldsFixed(m.Inject(r))
  {
  }

  /** The Type 2 attributes the MR injector creates empty, each only when absent. */
  lemma MRInjectPlaceholders(m: MRClassDicomInjector, r: Record)
    ensures var r' := m.Inject(r);
      && Holds(r', ScanOptions, if ScanOptions in r then r[ScanOptions] else Element(CS, Empty))
      && Holds(r', MRAcquisitionType, if MRAcquisitionType in r then r[MRAcquisitionType] else Element(CS, Empty))
      && Holds(r', RepetitionTime, if RepetitionTime in r then r[RepetitionTime] else Element(DS, Empty))
      && Holds(r', EchoTime, if EchoTime in r then r[EchoTime] else Element(DS, Empty))
      && Holds(r', EchoTrainLength, if EchoTrainLength in r then r[EchoTrainLength] else Element(US, Empty))
      && Holds(r', InversionTime, if InversionTime in r then r[InversionTime] else Element(DS, Empty))
  {
  }

  /** Applying an MR injector twice gives the record applying it once does. */
  lemma MRIdempotent(m: MRClassDicomInjector, r: Record)
    ensures m.Inject(m.Inject(r)) == m.Inject(r)
  {
    var once := m.Inject(r);
    MRInjectFixed(m, r);
    MRInjectPlaceholders(m, r);
    OverwriteHeld(m, once);
    PlaceholdPresent(once);
  }

  lemma OverwriteHeld(m: MRClassDicomInjector, r: Record)
    requires m.HoldsFixed(r)
    ensures m.Overwrite(r) == r
  {
    PutHeld(r, Modality, Str(CS, "MR"));
    PutHeld(r, SOPClassUID, Str(UI, MRSopClassUid));
    PutHeld(r, ImageType, Str(CS, m.imageType.DicomValue()));
    PutHeld(r, PhotometricInterpretation, Str(CS, m.photoInterpret.Name()));
    PutHeld(r, ScanningSequence, Element(CS, Strings(Names(m.scanningSequences, ScanningSequenceName))));
    PutHeld(r, SequenceVariant, Element(CS, Strings(Names(m.sequenceVariants, SequenceVariantName))));
  }

  lemma PlaceholdPresent(r: Record)
    requires ScanOptions in r && MRAcquisitionType in r && RepetitionTime in r
    requires EchoTime in r && EchoTrainLength in r && InversionTime in r
    ensures PlaceholdMR(r) == r
  {
    PutIfAbsentPresent(r, ScanOptions, Element(CS, Empty));
    PutIfAbsentPresent(r, MRAcquisitionType, Element(CS, Empty));
    PutIfAbsentPresent(r, RepetitionTime, Element(DS, Empty));
    assert PlaceholdAcquisition(r) == r;
    PutIfAbsentPresent(r, EchoTime, Element(DS, Empty));
    PutIfAbsentPresent(r, EchoTrainLength, Element(US, Empty));
    PutIfAbsentPresent(r, InversionTime, Element(DS, Empty));
  }

  /** The image types used by the MRT1 and MRT2 modality codes read "T1 MAP" and "T2 MAP". */
  lemma MapDicomValues()
    ensures T1_MAP.DicomValue() == "T1 MAP" && T2_MAP.DicomValue() == "T2 MAP"
  {
    assert T1_MAP.DicomValue() == "T1 MAP";
    assert T2_MAP.DicomValue() == "T2 MAP";
  }
}
