/**
 * CTClassDicomInjector: the attributes of a CT Image Storage object (CT Image Module,
 * DICOM PS3.3 section C.8.2.1), with the Type 2 attributes left empty when unknown
 * (DICOM PS3.5 section 7.4).
 */
module CTClassInjector {
  import opened Dicom

  const CTSopClassUid: string := "1.2.840.10008.5.1.4.1.1.2"

  datatype CTImageType = AXIAL | LOCALIZER
  {
    function Name(): string
    {
      match this
      case AXIAL => "AXIAL"
      case LOCALIZER => "LOCALIZER"
    }
  }

  /** Every tag the CT injector may write. */
  const CTTags: set<Tag> :=
    {Modality, SOPClassUID, ImageType, PhotometricInterpretation, RescaleIntercept, RescaleSlope, KVP, AcquisitionNumber}

  datatype CTClassDicomInjector = CTClassDicomInjector(imageType: CTImageType, photoInterpret: Photometric)
  {
    /**
     * apply: Modality, SOP class, image type and photometric interpretation are always
     * overwritten; the rescale pair defaults to intercept 0 and slope 1 and the Type 2
     * attributes KVP and AcquisitionNumber are created empty, each only when absent.
     * CTInjectFixed and CTInjectDefaults state what lands under each tag.
     */
    function Inject(r: Record): (r': Record)
      ensures AgreeOutside(r, r', CTTags)
    {
      CTDefaults(Overwrite(r))
    }

    /** The unconditional puts of apply, in order. */
    function Overwrite(r: Record): (r': Record)
      ensures HoldsFixed(r')
      ensures AgreeOutside(r, r', CTTags - CTDefaultTags)
    {
      r[Modality := Str(CS, "CT")][SOPClassUID := Str(UI, CTSopClassUid)]
       [ImageType := Str(CS, imageType.Name())][PhotometricInterpretation := Str(CS, photoInterpret.Name())]
    }

    /** The record already holds everything the unconditional puts would write. */
    predicate HoldsFixed(r: Record)
    {
      && Holds(r, Modality, Str(CS, "CT")) && Holds(r, SOPClassUID, Str(UI, CTSopClassUid))
      && Holds(r, ImageType, Str(CS, imageType.Name()))
      && Holds(r, PhotometricInterpretation, Str(CS, photoInterpret.Name()))
    }

    method Apply(obj: DicomObject) returns (result: DicomObject)
      modifies obj
      ensures result == obj && obj.elements == Inject(old(obj.elements))
    {
      obj.Put(Modality, Str(CS, "CT"));
      obj.Put(SOPClassUID, Str(UI, CTSopClassUid));
      obj.Put(ImageType, Str(CS, imageType.Name()));
      obj.Put(PhotometricInterpretation, Str(CS, photoInterpret.Name()));
      PutIfAbsentElement(obj, RescaleIntercept, Dec(DS, 0.0));
      PutIfAbsentElement(obj, RescaleSlope, Dec(DS, 1.0));
      PlaceholdElement(obj, KVP, DS);
      PlaceholdElement(obj, AcquisitionNumber, IS);
      result := obj;
    }
  }

  /** The tags apply only fills in when they are absent. */
  const CTDefaultTags: set<Tag> := {RescaleIntercept, RescaleSlope, KVP, AcquisitionNumber}

  /** The set-if-absent puts and placeholders of apply, in order. */
  function CTDefaults(r: Record): (r': Record)
    ensures forall t | t in r :: Holds(r', t, r[t])
    ensures Holds(r', RescaleIntercept, if RescaleIntercept in r then r[RescaleIntercept] else Dec(DS, 0.0))
    ensures Holds(r', RescaleSlope, if RescaleSlope in r then r[RescaleSlope] else Dec(DS, 1.0))
    ensures Holds(r', KVP, if KVP in r then r[KVP] else Element(DS, Empty))
    ensures Holds(r', AcquisitionNumber, if AcquisitionNumber in r then r[AcquisitionNumber] else Element(IS, Empty))
    ensures AgreeOutside(r, r', CTDefaultTags)
  {
    var r2 := PutIfAbsent(PutIfAbsent(r, RescaleIntercept, Dec(DS, 0.0)), RescaleSlope, Dec(DS, 1.0));
    Placehold(Placehold(r2, KVP, DS), AcquisitionNumber, IS)
  }

  /** new CTClassDicomInjector(): an axial MONOCHROME2 image. */
  const DefaultCT: CTClassDicomInjector := CTClassDicomInjector(AXIAL, MONOCHROME2)

  /** What the CT injector always writes. */
  lemma CTInjectFixed(c: CTClassDicomInjector, r: Record)
    ensures c.HoldsFixed(c.Inject(r))
  {
  }

  /**
   * The rescale pair defaults to the identity transform and KVP and AcquisitionNumber to
   * empty elements; an element already present under any of these tags is kept.
   */
  lemma CTInjectDefaults(c: CTClassDicomInjector, r: Record)
    ensures var r' := c.Inject(r);
      && Holds(r', RescaleIntercept, if RescaleIntercept in r then r[RescaleIntercept] else Dec(DS, 0.0))
      && Holds(r', RescaleSlope, if RescaleSlope in r then r[RescaleSlope] else Dec(DS, 1.0))
      && Holds(r', KVP, if KVP in r then r[KVP] else Element(DS, Empty))
      && Holds(r', AcquisitionNumber, if AcquisitionNumber in r then r[AcquisitionNumber] else Element(IS, Empty))
  {
  }

  /** Applying a CT injector twice gives the record applying it once does. */
  lemma CTIdempotent(c: CTClassDicomInjector, r: Record)
    ensures c.Inject(c.Inject(r)) == c.Inject(r)
  {
    var once := c.Inject(r);
    CTInjectFixed(c, r);
    CTInjectDefaults(c, r);
    PutHeld(once, Modality, Str(CS, "CT"));
    PutHeld(once, SOPClassUID, Str(UI, CTSopClassUid));
    PutHeld(once, ImageType, Str(CS, c.imageType.Name()));
    PutHeld(once, PhotometricInterpretation, Str(CS, c.photoInterpret.Name()));
    assert c.Overwrite(once) == once;
    PutIfAbsentPresent(once, RescaleIntercept, Dec(DS, 0.0));
    PutIfAbsentPresent(once, RescaleSlope, Dec(DS, 1.0));
    PutIfAbsentPresent(once, KVP, Element(DS, Empty));
    PutIfAbsentPresent(once, AcquisitionNumber, Element(IS, Empty));
  }

  /** On an empty record the default CT injector yields exactly its eight attributes. */
  lemma DefaultCTOnEmptyRecord()
    ensures DefaultCT.Inject(map[]) == map[
      Modality := Str(CS, "CT"), SOPClassUID := Str(UI, CTSopClassUid),
      ImageType := Str(CS, "AXIAL"), PhotometricInterpretation := Str(CS, "MONOCHROME2"),
      RescaleIntercept := Dec(DS, 0.0), RescaleSlope := Dec(DS, 1.0),
      KVP := Element(DS, Empty), AcquisitionNumber := Element(IS, Empty)]
  {
  }
}
