/**
 * A DICOM data set as the converter sees it: a map from attribute tag to element, where an
 * element carries its value representation (VR) and a value that may be empty (what
 * putNull stores). DicomObject is the mutable object every injector updates in place.
 */
module Dicom {
  import opened JavaNum

  /** The attributes the converter and its injectors read or write, as named in the DICOM data dictionary. */
  datatype Tag =
    | TransferSyntaxUID | StudyInstanceUID | SeriesInstanceUID | SOPInstanceUID | FrameOfReferenceUID
    | InstanceNumber | Columns | Rows | ImagesInAcquisition | SamplesPerPixel | StudyDescription
    | BitsAllocated | BitsStored | HighBit | PixelRepresentation | RescaleSlope | RescaleIntercept
    | SliceThickness | PixelSpacing | ImageOrientation | ImagePosition | WindowCenter | WindowWidth
    | PixelData | Modality | SOPClassUID | ImageType | PhotometricInterpretation
    | KVP | AcquisitionNumber
    | ScanningSequence | SequenceVariant | ScanOptions | MRAcquisitionType | RepetitionTime | EchoTime
    | EchoTrainLength | InversionTime
    | PatientName | PatientID | Manufacturer | InstitutionName | BodyPartExamined
    | SeriesDescription | AccessionNumber

  /** The value representations used here (DICOM PS3.5 section 6.2). */
  datatype VR = CS | DS | IS | LO | OB | OW | PN | SH | UI | US

  datatype Value =
    | Empty                              // putNull
    | Strings(strings: seq<string>)      // putString, putStrings
    | Ints(ints: seq<int>)               // putInt
    | Decimals(decimals: seq<real>)      // putFloat, putDouble, putDoubles
    | Bytes(bytes: seq<byte>)            // putBytes

  datatype Element = Element(vr: VR, value: Value)

  type Record = map<Tag, Element>

  function Str(vr: VR, s: string): Element { Element(vr, Strings([s])) }
  function Int(vr: VR, i: int): Element { Element(vr, Ints([i])) }
  function Dec(vr: VR, x: real): Element { Element(vr, Decimals([x])) }

  /** r holds exactly e under t. */
  predicate Holds(r: Record, t: Tag, e: Element)
  {
    t in r && r[t] == e
  }

  /** r and r' hold the same elements under every tag outside `touched`. */
  ghost predicate AgreeOutside(r: Record, r': Record, touched: set<Tag>)
  {
    forall t | t !in touched :: (t in r <==> t in r') && (t in r ==> r[t] == r'[t])
  }

  /** Two updates in a row keep every tag that neither of them touches. */
  lemma AgreeOutsideTrans(r1: Record, r2: Record, r3: Record, a: set<Tag>, b: set<Tag>)
    requires AgreeOutside(r1, r2, a) && AgreeOutside(r2, r3, b)
    ensures AgreeOutside(r1, r3, a + b)
  {
  }

  /** Three updates that each touch only tags of `touched` keep every tag outside it. */
  lemma AgreeOutsideChain(r1: Record, r2: Record, r3: Record, r4: Record,
                          a: set<Tag>, b: set<Tag>, c: set<Tag>, touched: set<Tag>)
    requires AgreeOutside(r1, r2, a) && AgreeOutside(r2, r3, b) && AgreeOutside(r3, r4, c)
    requires a <= touched && b <= touched && c <= touched
    ensures AgreeOutside(r1, r4, touched)
  {
  }

  /** `if (!obj.contains(t)) obj.put(t, e)`: the set-if-absent rule. */
  function PutIfAbsent(r: Record, t: Tag, e: Element): (r': Record)
    ensures t in r'
    ensures r'[t] == if t in r then r[t] else e
  {
    r[t := if t in r then r[t] else e]
  }

  /** putIfAbsent touches no other attribute. */
  lemma PutIfAbsentFrame(r: Record, t: Tag, e: Element)
    ensures AgreeOutside(r, PutIfAbsent(r, t, e), {t})
  {
  }

  /** Putting what a tag already holds changes nothing. */
  lemma PutHeld(r: Record, t: Tag, e: Element)
    requires Holds(r, t, e)
    ensures r[t := e] == r
  {
  }

  /** The set-if-absent rule changes nothing once the tag is present. */
  lemma PutIfAbsentPresent(r: Record, t: Tag, e: Element)
    requires t in r
    ensures PutIfAbsent(r, t, e) == r
  {
    PutHeld(r, t, r[t]);
  }

  /** placeholdElement: an empty element of the given VR, created only when the tag is absent. */
  function Placehold(r: Record, t: Tag, vr: VR): Record
  {
    PutIfAbsent(r, t, Element(vr, Empty))
  }

  /** The attribute container every injector receives and returns (a dcm4che2 DicomObject). */
  class DicomObject {
    var elements: Record

    /** new BasicDicomObject() */
    constructor ()
      ensures elements == map[]
    {
      elements := map[];
    }

    /** new BasicDicomObject(prototype): a copy that shares nothing with the prototype. */
    constructor Copy(prototype: Record)
      ensures elements == prototype
    {
      elements := prototype;
    }

    predicate Contains(t: Tag)
      reads this
    {
      t in elements
    }

    /** putString, putInt, putDouble, ...: replaces whatever the tag held. */
    method Put(t: Tag, e: Element)
      modifies this
      ensures elements == old(elements)[t := e]
    {
      elements := elements[t := e];
    }

    method PutNull(t: Tag, vr: VR)
      modifies this
      ensures elements == old(elements)[t := Element(vr, Empty)]
    {
      elements := elements[t := Element(vr, Empty)];
    }
  }

  /** `if (!obj.contains(t)) obj.put(t, e)` on the object itself. */
  method PutIfAbsentElement(obj: DicomObject, t: Tag, e: Element)
    modifies obj
    ensures obj.elements == PutIfAbsent(old(obj.elements), t, e)
  {
    if !obj.Contains(t) {
      obj.Put(t, e);
    } else {
      assert obj.elements == obj.elements[t := obj.elements[t]];
    }
  }

  /** placeholdElement in the CT and MR class injectors. */
  method PlaceholdElement(obj: DicomObject, t: Tag, vr: VR)
    modifies obj
    ensures obj.elements == Placehold(old(obj.elements), t, vr)
  {
    if !obj.Contains(t) {
      obj.PutNull(t, vr);
    } else {
      assert obj.elements == obj.elements[t := obj.elements[t]];
    }
  }

  /** The photometric interpretations both modality class injectors offer. */
  datatype Photometric = MONOCHROME1 | MONOCHROME2
  {
    function Name(): string
    {
      match this
      case MONOCHROME1 => "MONOCHROME1"
      case MONOCHROME2 => "MONOCHROME2"
    }
  }
}
