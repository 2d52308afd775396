/**
 * NIFTIDicomInjector: copies the NIfTI-1 header into the Image Pixel and Image Plane
 * attributes of a converted slice (DICOM PS3.3 sections C.7.6.3 and C.7.6.2). The pixel depth
 * is capped at 16 bits, and the rescale pair is written only where the slice has none yet.
 */
module HeaderMapper {
  import opened JavaStrings
  import opened Nifti
  import opened Dicom

  /** isUnsigned: the unsigned integer datatypes. */
  predicate IsUnsigned(dt: Datatype)
  {
    dt == UINT8 || dt == UINT16 || dt == UINT32 || dt == UINT64
  }

  /** The bits per sample the object declares: bitpix, capped at 16. */
  function AllocatedBits(h: Header): (bits: int)
    ensures bits <= 16
    ensures bits == h.bitpix || (h.bitpix > 16 && bits == 16)
  {
    if h.bitpix > 16 then 16 else h.bitpix
  }

  /** scl_slope, scaled by bitpix / 16 when the depth is capped. */
  function Slope(h: Header): (slope: real)
    ensures h.bitpix <= 16 ==> slope == h.sclSlope
    ensures h.bitpix > 16 ==> slope * 16.0 == h.sclSlope * h.bitpix as real
  {
    if h.bitpix > 16 then h.sclSlope * (h.bitpix as real / 16.0) else h.sclSlope
  }

  /** The description with every backslash, the DICOM value separator, replaced by '!'. */
  function Description(h: Header): (s: string)
    ensures |s| == |h.descrip| && '\\' !in s
    ensures forall i | 0 <= i < |s| :: s[i] == (if h.descrip[i] == '\\' then '!' else h.descrip[i])
  {
    Replace(h.descrip, '\\', '!')
  }

  const ImageTags: set<Tag> := {Columns, Rows, ImagesInAcquisition, SamplesPerPixel, StudyDescription}
  const BitTags: set<Tag> := {BitsAllocated, BitsStored, HighBit, PixelRepresentation}
  const RescaleTags: set<Tag> := {RescaleSlope, RescaleIntercept}
  const GeometryTags: set<Tag> := {SliceThickness, PixelSpacing, ImageOrientation, ImagePosition}

  datatype NIFTIDicomInjector = NIFTIDicomInjector(header: Header)
  {
    /** apply: the four steps below, in the order the source writes them. */
    function Inject(r: Record): (r': Record)
    {
      Geometry(Rescale(Bits(Image(r))))
    }

    /** dim[1..4] and the description. */
    function Image(r: Record): Record
    {
      r[Columns := Int(US, header.dim[1])][Rows := Int(US, header.dim[2])]
       [ImagesInAcquisition := Int(IS, header.dim[3])][SamplesPerPixel := Int(US, header.dim[4])]
       [StudyDescription := Str(LO, Description(header))]
    }

    /** The pixel depth and representation. */
    function Bits(r: Record): Record
    {
      var bits := AllocatedBits(header);
      r[BitsAllocated := Int(US, bits)][BitsStored := Int(US, bits)][HighBit := Int(US, bits - 1)]
       [PixelRepresentation := Int(US, if IsUnsigned(header.dtype) then 0 else 1)]
    }

    /** Rescale Slope and Rescale Intercept, each only when absent. */
    function Rescale(r: Record): Record
    {
      PutIfAbsent(PutIfAbsent(r, RescaleSlope, Dec(DS, Slope(header))), RescaleIntercept, Dec(DS, header.sclInter))
    }

    /** pixdim[3], pixdim[1..2], and zero orientation and position vectors. */
    function Geometry(r: Record): Record
    {
      r[SliceThickness := Dec(DS, header.pixdim[3])]
       [PixelSpacing := Element(DS, Decimals([header.pixdim[1], header.pixdim[2]]))]
       [ImageOrientation := Element(DS, Decimals([0.0, 0.0, 0.0]))]
       [ImagePosition := Element(DS, Decimals([0.0, 0.0, 0.0]))]
    }

    method PutImage(obj: DicomObject)
      modifies obj
      ensures obj.elements == Image(old(obj.elements))
    {
      obj.Put(Columns, Int(US, header.dim[1]));
      obj.Put(Rows, Int(US, header.dim[2]));
      obj.Put(ImagesInAcquisition, Int(IS, header.dim[3]));
      obj.Put(SamplesPerPixel, Int(US, header.dim[4]));
      obj.Put(StudyDescription, Str(LO, Replace(header.descrip, '\\', '!')));
    }

    method PutBits(obj: DicomObject)
      modifies obj
      ensures obj.elements == Bits(old(obj.elements))
    {
      var bitsAllocated := header.bitpix;
      if bitsAllocated > 16 {
        bitsAllocated := 16;
      }
      obj.Put(BitsAllocated, Int(US, bitsAllocated));
      obj.Put(BitsStored, Int(US, bitsAllocated));
      obj.Put(HighBit, Int(US, bitsAllocated - 1));
      obj.Put(PixelRepresentation, Int(US, if IsUnsigned(header.dtype) then 0 else 1));
    }

    method PutRescale(obj: DicomObject)
      modifies obj
      ensures obj.elements == Rescale(old(obj.elements))
    {
      var slope := header.sclSlope;
      if header.bitpix > 16 {
        slope := slope * (header.bitpix as real / 16.0);
      }
      assert slope == Slope(header);
      PutIfAbsentElement(obj, RescaleSlope, Dec(DS, slope));
      PutIfAbsentElement(obj, RescaleIntercept, Dec(DS, header.sclInter));
    }

    method PutGeometry(obj: DicomObject)
      modifies obj
      ensures obj.elements == Geometry(old(obj.elements))
    {
      obj.Put(SliceThickness, Dec(DS, header.pixdim[3]));
      obj.Put(PixelSpacing, Element(DS, Decimals([header.pixdim[1], header.pixdim[2]])));
      obj.Put(ImageOrientation, Element(DS, Decimals([0.0, 0.0, 0.0])));
      obj.Put(ImagePosition, Element(DS, Decimals([0.0, 0.0, 0.0])));
    }

    /** apply: updates the record in place and returns that same record. */
    method Apply(obj: DicomObject) returns (result: DicomObject)
      modifies obj
      ensures result == obj && obj.elements == Inject(old(obj.elements))
    {
      PutImage(obj);
      PutBits(obj);
      PutRescale(obj);
      PutGeometry(obj);
      result := obj;
    }
  }

  /** Columns, Rows, Images in Acquisition and Samples per Pixel are dim[1..4]; the description has no backslash. */
  lemma HeaderImage(m: NIFTIDicomInjector, r: Record)
    ensures var r' := m.Inject(r);
      && Holds(r', Columns, Int(US, m.header.dim[1])) && Holds(r', Rows, Int(US, m.header.dim[2]))
      && Holds(r', ImagesInAcquisition, Int(IS, m.header.dim[3])) && Holds(r', SamplesPerPixel, Int(US, m.header.dim[4]))
      && Holds(r', StudyDescription, Str(LO, Description(m.header)))
  {
    var image := m.Image(r);
    ImageKept(m, r, Columns);
    ImageKept(m, r, Rows);
    ImageKept(m, r, ImagesInAcquisition);
    ImageKept(m, r, SamplesPerPixel);
    ImageKept(m, r, StudyDescription);
  }

  /** An attribute of the first step survives the three steps after it. */
  lemma ImageKept(m: NIFTIDicomInjector, r: Record, t: Tag)
    requires t in ImageTags
    ensures t in m.Inject(r) && m.Inject(r)[t] == m.Image(r)[t]
  {
    var image := m.Image(r);
    assert t !in BitTags && t !in RescaleTags && t !in GeometryTags;
    var bits := m.Bits(image);
    assert t in bits && bits[t] == image[t];
    var rescaled := m.Rescale(bits);
    assert t in rescaled && rescaled[t] == image[t];
  }

  /**
   * Bits Allocated and Bits Stored are min(bitpix, 16), High Bit one less, and Pixel
   * Representation is 0 exactly for the unsigned datatypes.
   */
  lemma HeaderBits(m: NIFTIDicomInjector, r: Record)
    ensures var r', bits := m.Inject(r), AllocatedBits(m.header);
      && Holds(r', BitsAllocated, Int(US, bits)) && Holds(r', BitsStored, Int(US, bits))
      && Holds(r', HighBit, Int(US, bits - 1))
      && (Holds(r', PixelRepresentation, Int(US, 0)) <==> IsUnsigned(m.header.dtype))
      && (Holds(r', PixelRepresentation, Int(US, 1)) <==> !IsUnsigned(m.header.dtype))
  {
  }

  /** A rescale pair already in the record survives; a missing one comes from the header. */
  lemma HeaderRescale(m: NIFTIDicomInjector, r: Record)
    ensures var r' := m.Inject(r);
      && RescaleSlope in r' && RescaleIntercept in r'
      && r'[RescaleSlope] == (if RescaleSlope in r then r[RescaleSlope] else Dec(DS, Slope(m.header)))
      && r'[RescaleIntercept] == (if RescaleIntercept in r then r[RescaleIntercept] else Dec(DS, m.header.sclInter))
  {
  }

  /** Slice Thickness is pixdim[3], Pixel Spacing pixdim[1..2]; orientation and position are zero vectors. */
  lemma HeaderGeometry(m: NIFTIDicomInjector, r: Record)
    ensures var r' := m.Inject(r);
      && Holds(r', SliceThickness, Dec(DS, m.header.pixdim[3]))
      && Holds(r', PixelSpacing, Element(DS, Decimals([m.header.pixdim[1], m.header.pixdim[2]])))
      && Holds(r', ImageOrientation, Element(DS, Decimals([0.0, 0.0, 0.0])))
      && Holds(r', ImagePosition, Element(DS, Decimals([0.0, 0.0, 0.0])))
  {
  }

  /** No attribute outside the fifteen the mapper writes changes. */
  lemma HeaderFrame(m: NIFTIDicomInjector, r: Record)
    ensures AgreeOutside(r, m.Inject(r), ImageTags + BitTags + RescaleTags + GeometryTags)
  {
  }

  /** Each step changes nothing once its attributes already hold what it writes. */
  lemma ImageHeld(m: NIFTIDicomInjector, r: Record)
    requires Holds(r, Columns, Int(US, m.header.dim[1])) && Holds(r, Rows, Int(US, m.header.dim[2]))
    requires Holds(r, ImagesInAcquisition, Int(IS, m.header.dim[3])) && Holds(r, SamplesPerPixel, Int(US, m.header.dim[4]))
    requires Holds(r, StudyDescription, Str(LO, Description(m.header)))
    ensures m.Image(r) == r
  {
    PutHeld(r, Columns, r[Columns]);
    PutHeld(r, Rows, r[Rows]);
    PutHeld(r, ImagesInAcquisition, r[ImagesInAcquisition]);
    PutHeld(r, SamplesPerPixel, r[SamplesPerPixel]);
    PutHeld(r, StudyDescription, r[StudyDescription]);
  }

  lemma BitsHeld(m: NIFTIDicomInjector, r: Record)
    requires Holds(r, BitsAllocated, Int(US, AllocatedBits(m.header))) && Holds(r, BitsStored, Int(US, AllocatedBits(m.header)))
    requires Holds(r, HighBit, Int(US, AllocatedBits(m.header) - 1))
    requires Holds(r, PixelRepresentation, Int(US, if IsUnsigned(m.header.dtype) then 0 else 1))
    ensures m.Bits(r) == r
  {
    PutHeld(r, BitsAllocated, r[BitsAllocated]);
    PutHeld(r, BitsStored, r[BitsStored]);
    PutHeld(r, HighBit, r[HighBit]);
    PutHeld(r, PixelRepresentation, r[PixelRepresentation]);
  }

  lemma GeometryHeld(m: NIFTIDicomInjector, r: Record)
    requires Holds(r, SliceThickness, Dec(DS, m.header.pixdim[3]))
    requires Holds(r, PixelSpacing, Element(DS, Decimals([m.header.pixdim[1], m.header.pixdim[2]])))
    requires Holds(r, ImageOrientation, Element(DS, Decimals([0.0, 0.0, 0.0])))
    requires Holds(r, ImagePosition, Element(DS, Decimals([0.0, 0.0, 0.0])))
    ensures m.Geometry(r) == r
  {
    PutHeld(r, SliceThickness, r[SliceThickness]);
    PutHeld(r, PixelSpacing, r[PixelSpacing]);
    PutHeld(r, ImageOrientation, r[ImageOrientation]);
    PutHeld(r, ImagePosition, r[ImagePosition]);
  }

  /** Mapping the same header twice gives the record mapping it once does. */
  lemma HeaderIdempotent(m: NIFTIDicomInjector, r: Record)
    ensures m.Inject(m.Inject(r)) == m.Inject(r)
  {
    var once := m.Inject(r);
    HeaderImage(m, r);
    ImageHeld(m, once);
    HeaderBits(m, r);
    BitsHeld(m, once);
    HeaderRescale(m, r);
    PutIfAbsentPresent(once, RescaleSlope, Dec(DS, Slope(m.header)));
    PutIfAbsentPresent(once, RescaleIntercept, Dec(DS, m.header.sclInter));
    HeaderGeometry(m, r);
    GeometryHeld(m, once);
  }
}
