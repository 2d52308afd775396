/**
 * The pure helpers of NIFTIConvertWebServlet: the body-part code table, the gzip content-type
 * test, the attributes derived from an entry's name, and the defaulting of the request
 * parameters into the injector chain applied to every converted record. The name doPost hands to
 * injectSeriesInfo is the multipart form field's name (part.getName(), not the submitted file
 * name), or null for a request whose body is the volume itself.
 */
module ConvertServlet {
  import opened Wrappers
  import opened Dicom
  import opened JavaStrings
  import opened CTClassInjector
  import opened MRClassInjector
  import opened InjectorBuilder

  /** The runtime exceptions these helpers can throw. */
  datatype ServletError =
    | StringIndexOutOfBounds(end: int)   // substring(0, end) with end < 0
    | ArrayIndexOutOfBounds(index: int)  // split(...)[index] past the end

  /** convertBodyPartId: the four body-part codes of the file naming scheme; anything else is null. */
  function ConvertBodyPartId(arg: string): (part: Option<string>)
    ensures part.Some? <==> arg in {"Ab", "Th", "ThAb", "Wb"}
  {
    if arg == "Ab" then Some("ABDOMEN")
    else if arg == "Th" then Some("CHEST")
    else if arg == "ThAb" then Some("CHESTABDOMEN")
    else if arg == "Wb" then Some("WHOLEBODY")
    else None
  }

  /** The code a body part is written with in a file name. */
  function BodyPartCode(part: string): Option<string>
  {
    if part == "ABDOMEN" then Some("Ab")
    else if part == "CHEST" then Some("Th")
    else if part == "CHESTABDOMEN" then Some("ThAb")
    else if part == "WHOLEBODY" then Some("Wb")
    else None
  }

  /**
   * The table is a bijection between the four codes and the four body parts: every mapped code
   * comes back from its body part, and every body part's code maps to it.
   */
  lemma BodyPartTable(arg: string, part: string)
    ensures ConvertBodyPartId(arg).Some? ==> BodyPartCode(ConvertBodyPartId(arg).value) == Some(arg)
    ensures BodyPartCode(part).Some? ==> ConvertBodyPartId(BodyPartCode(part).value) == Some(part)
  {
  }

  /** isGzip: null is not gzip; otherwise split(";")[0].trim().endsWith("gzip"), which throws for a run of ';'. */
  function IsGzip(contentType: Option<string>): Result<bool, ServletError>
  {
    match contentType
    case None => Ok(false)
    case Some(ct) =>
      var parts := Split(ct, ';');
      if |parts| == 0 then Err(ArrayIndexOutOfBounds(0)) else Ok(EndsWith(Trim(parts[0]), "gzip"))
  }

  /**
   * A content type is gzip exactly when its media type (the text before the first ';'), trimmed,
   * ends with "gzip"; the test throws exactly for a non-empty content type made only of ';'.
   */
  lemma IsGzipMeaning(contentType: Option<string>)
    ensures contentType.None? ==> IsGzip(contentType) == Ok(false)
    ensures contentType.Some? ==>
      (IsGzip(contentType).Err? <==> |contentType.value| > 0 && OnlyChar(contentType.value, ';'))
    ensures contentType.Some? && IsGzip(contentType).Ok? ==>
      (IsGzip(contentType).value <==> EndsWith(Trim(SegmentBefore(contentType.value, ';')), "gzip"))
  {
    if contentType.Some? {
      SplitFirst(contentType.value, ';');
    }
  }

  /** The file extension injectSeriesInfo and injectBodyPart strip. */
  const NiiGz: string := ".nii.gz"

  /** The file name without a trailing ".nii.gz" (seven characters). */
  function StripNiiGz(filename: string): (name: string)
    ensures EndsWith(filename, NiiGz) ==> name + NiiGz == filename
    ensures !EndsWith(filename, NiiGz) ==> name == filename
  {
    if EndsWith(filename, NiiGz) then filename[..|filename| - 7] else filename
  }

  /** Stripping the extension from a name with the extension added gives the name back. */
  lemma StripNiiGzAdded(name: string)
    ensures StripNiiGz(name + NiiGz) == name
  {
    assert EndsWith(name + NiiGz, NiiGz) by { assert (name + NiiGz)[|name|..] == NiiGz; }
  }

  /** The longest Accession Number the servlet writes (the SH value length of DICOM PS3.5 section 6.2). */
  const AccessionLength: nat := 16

  function Min(a: int, b: int): int
  {
    if a < b then a else b
  }

  /**
   * injectSeriesInfo as written: the guard tests n != 1 where n is the index of the first '_',
   * so a name without '_' reaches substring(0, -1), and a name with '_' at index 1 gets no
   * Accession Number.
   */
  function SeriesInfoAsWritten(r: Record, filename: Option<string>): Result<Record, ServletError>
  {
    match filename
    case None => Ok(r)
    case Some(f) =>
      var name := StripNiiGz(f);
      var described := r[SeriesDescription := Str(LO, name)];
      var n := IndexOf(name, '_');
      if n != 1 then
        var end := if n > AccessionLength then AccessionLength else n;
        if end < 0 then Err(StringIndexOutOfBounds(end))
        else Ok(described[AccessionNumber := Str(SH, name[..end])])
      else Ok(described)
  }

  /** As written, every name without '_' (after the extension is stripped) makes injectSeriesInfo throw. */
  lemma SeriesInfoAsWrittenThrows(r: Record, filename: string)
    ensures SeriesInfoAsWritten(r, Some(filename)).Err? <==> '_' !in StripNiiGz(filename)
  {
  }

  /**
   * For example "scan.nii.gz", or a form field named "file": no '_', so substring(0, -1) throws
   * StringIndexOutOfBoundsException. In doPost it is raised lazily inside the stream, is not the
   * RuntimeIOException the conversion catches, and so fails the whole upload with the
   * "interrupted" reply; since the name is the form field's, a field named "file" fails every
   * upload sent through it.
   */
  lemma SeriesInfoAsWrittenExample(r: Record)
    ensures SeriesInfoAsWritten(r, Some("scan.nii.gz")) == Err(StringIndexOutOfBounds(-1))
    ensures SeriesInfoAsWritten(r, Some("file")) == Err(StringIndexOutOfBounds(-1))
  {
    StripNiiGzAdded("scan");
    assert "scan" + NiiGz == "scan.nii.gz";
    assert '_' !in "scan";
    assert !EndsWith("file", NiiGz);
    assert '_' !in "file";
  }

  /** As written, "a_b.nii.gz" gets no Accession Number although its name has a prefix before '_'. */
  lemma SeriesInfoAsWrittenSkips(r: Record)
    ensures SeriesInfoAsWritten(r, Some("a_b.nii.gz")) == Ok(r[SeriesDescription := Str(LO, "a_b")])
  {
    StripNiiGzAdded("a_b");
    assert "a_b" + NiiGz == "a_b.nii.gz";
    assert IndexOf("a_b", '_') == 1;
  }

  /**
   * The Accession Number of a name holding '_': the longest prefix of at most 16 characters
   * without '_', so it is cut at the first '_' or after 16 characters.
   */
  function AccessionOf(name: string): (a: string)
    requires '_' in name
    ensures |a| <= AccessionLength && |a| <= |name| && a == name[..|a|] && '_' !in a
    ensures |a| < AccessionLength ==> |a| < |name| && name[|a|] == '_'
  {
    var n := IndexOf(name, '_');
    var a := name[..Min(n, AccessionLength)];
    assert a == name[..n][..|a|];
    a
  }

  /**
   * injectSeriesInfo with the guard n != -1: the Series Description is the name without
   * its extension, and a name containing '_' also gets its Accession Number.
   */
  function SeriesInfo(r: Record, filename: Option<string>): Record
  {
    match filename
    case None => r
    case Some(f) =>
      var name := StripNiiGz(f);
      var described := r[SeriesDescription := Str(LO, name)];
      if '_' in name then described[AccessionNumber := Str(SH, AccessionOf(name))]
      else described
  }

  /**
   * What the corrected injectSeriesInfo promises: the description, an Accession Number exactly
   * when the name holds '_', and no other change.
   */
  lemma SeriesInfoMeaning(r: Record, filename: string)
    ensures var name := StripNiiGz(filename);
      var r' := SeriesInfo(r, Some(filename));
      && Holds(r', SeriesDescription, Str(LO, name))
      && ('_' in name ==> Holds(r', AccessionNumber, Str(SH, AccessionOf(name))))
      && ('_' !in name ==> AgreeOutside(r, r', {SeriesDescription}))
      && AgreeOutside(r, r', {SeriesDescription, AccessionNumber})
  {
  }

  /** Wherever the written guard does not misfire (a '_' at an index other than 1), it agrees with the corrected one. */
  lemma SeriesInfoAgrees(r: Record, filename: Option<string>)
    requires filename.Some? ==> IndexOf(StripNiiGz(filename.value), '_') !in {-1, 1}
    ensures SeriesInfoAsWritten(r, filename) == Ok(SeriesInfo(r, filename))
  {
  }

  /** injectSeriesInfo (with the corrected guard) on the record itself. */
  method InjectSeriesInfo(obj: DicomObject, filename: Option<string>) returns (result: DicomObject)
    modifies obj
    ensures result == obj && obj.elements == SeriesInfo(old(obj.elements), filename)
  {
    result := obj;
    if filename.None? {
      return;
    }
    var name := filename.value;
    if EndsWith(name, NiiGz) {
      name := name[..|name| - 7];
    }
    obj.Put(SeriesDescription, Str(LO, name));
    var n := IndexOf(name, '_');
    if n != -1 {
      if n > AccessionLength {
        n := AccessionLength;
      }
      obj.Put(AccessionNumber, Str(SH, name[..n]));
    }
  }

  /**
   * injectBodyPart: a name of at least three '_'-separated fields (Java split semantics) gets
   * the body part its third field codes for, or an empty Body Part Examined when the code is
   * unknown; any other name leaves the record as it is.
   */
  function BodyPartInfo(r: Record, filename: Option<string>): Record
  {
    match filename
    case None => r
    case Some(f) =>
      var parts := Split(StripNiiGz(f), '_');
      if |parts| >= 3 then
        match ConvertBodyPartId(parts[2])
        case None => r[BodyPartExamined := Element(CS, Empty)]
        case Some(part) => r[BodyPartExamined := Str(CS, part)]
      else r
  }

  /**
   * A file named patient_series_code.nii.gz, with no '_' inside the three fields, gets the body
   * part of its code (an empty value for an unknown code), and nothing else changes.
   */
  lemma BodyPartFromFileName(r: Record, patient: string, series: string, code: string)
    requires '_' !in patient && '_' !in series && '_' !in code && code != []
    ensures var r' := BodyPartInfo(r, Some(patient + "_" + series + "_" + code + NiiGz));
      && (ConvertBodyPartId(code).Some? ==> Holds(r', BodyPartExamined, Str(CS, ConvertBodyPartId(code).value)))
      && (ConvertBodyPartId(code).None? ==> Holds(r', BodyPartExamined, Element(CS, Empty)))
      && AgreeOutside(r, r', {BodyPartExamined})
  {
    var name := patient + "_" + series + "_" + code;
    StripNiiGzAdded(name);
    SplitThree(patient, series, code, '_');
    assert Split(name, '_') == [patient, series, code];
  }

  /** A name of fewer than three fields leaves the record unchanged; so does a missing name. */
  lemma BodyPartNeedsThreeFields(r: Record, filename: Option<string>)
    requires filename.Some? ==> |Split(StripNiiGz(filename.value), '_')| < 3
    ensures BodyPartInfo(r, filename) == r
  {
  }

  /** injectBodyPart on the record itself. */
  method InjectBodyPart(obj: DicomObject, filename: Option<string>) returns (result: DicomObject)
    modifies obj
    ensures result == obj && obj.elements == BodyPartInfo(old(obj.elements), filename)
  {
    result := obj;
    if filename.None? {
      return;
    }
    var name := filename.value;
    if EndsWith(name, NiiGz) {
      name := name[..|name| - 7];
    }
    var parts := Split(name, '_');
    if |parts| >= 3 {
      var bodyPart := ConvertBodyPartId(parts[2]);
      if bodyPart.None? {
        obj.PutNull(BodyPartExamined, CS);
      } else {
        obj.Put(BodyPartExamined, Str(CS, bodyPart.value));
      }
    }
  }

  /** The request parameters doPost reads; a missing parameter is None. */
  datatype Request = Request(
    modality: Option<string>,
    manufacturer: Option<string>,
    institutionName: Option<string>,
    patientName: Option<string>,
    patientID: Option<string>,
    bodyPart: Option<string>)

  const DefaultModality: string := "CT"
  const Unknown: string := "UNKNOWN"
  const AnonymousPatient: string := "Patient^Anonymous"

  function OrElse(p: Option<string>, default: string): string
  {
    if p.Some? then p.value else default
  }

  /**
   * The injector doPost builds: patient, general clinic, body part, then the upper-cased
   * modality, each missing parameter replaced by its default and the body part code mapped;
   * `randomId` stands for the random UUID a missing patient ID gets.
   */
  function RequestChain(req: Request, randomId: string): seq<Injector>
  {
    ClinicalChain(
      OrElse(req.patientName, AnonymousPatient),
      OrElse(req.patientID, randomId),
      OrElse(req.manufacturer, Unknown),
      OrElse(req.institutionName, Unknown),
      if req.bodyPart.Some? then ConvertBodyPartId(req.bodyPart.value) else None,
      ToUpperCase(OrElse(req.modality, DefaultModality)))
  }

  /** The builder calls of doPost: patient, general clinic, body part, modality, build. */
  method ComposeInjector(patientName: string, patientID: string, manufacturer: string, institutionName: string,
                         bodyPart: Option<string>, modality: string) returns (injector: seq<Injector>)
    ensures injector == ClinicalChain(patientName, patientID, manufacturer, institutionName, bodyPart, modality)
  {
    var builder := new DicomInjectorBuilder();
    builder.Patient(Some(patientName), Some(patientID));
    builder.GeneralClinic(manufacturer, institutionName);
    builder.BodyPart(bodyPart);
    var thrown := builder.Modality(Some(modality));
    injector := builder.Build();
  }

  /** The defaulting of doPost, then the builder calls. */
  method BuildRequestInjector(req: Request, randomId: string) returns (injector: seq<Injector>)
    ensures injector == RequestChain(req, randomId)
  {
    var modality := if req.modality.None? then DefaultModality else req.modality.value;
    var manufacturer := if req.manufacturer.None? then Unknown else req.manufacturer.value;
    var institutionName := if req.institutionName.None? then Unknown else req.institutionName.value;
    var patientName := if req.patientName.None? then AnonymousPatient else req.patientName.value;
    var patientID := if req.patientID.None? then randomId else req.patientID.value;
    var bodyPart := req.bodyPart;
    if bodyPart.Some? {
      bodyPart := ConvertBodyPartId(bodyPart.value);
    }
    injector := ComposeInjector(patientName, patientID, manufacturer, institutionName, bodyPart, ToUpperCase(modality));
  }

  /**
   * A request without a modality yields CT records: the CT class attributes, the given or
   * default patient name and manufacturer, and the body part its code maps to.
   */
  lemma RequestWithoutModality(req: Request, randomId: string, r: Record)
    requires req.modality.None?
    ensures var r' := Run(RequestChain(req, randomId), r);
      && Holds(r', Modality, Str(CS, "CT")) && Holds(r', SOPClassUID, Str(UI, CTSopClassUid))
      && Holds(r', PatientName, Str(PN, OrElse(req.patientName, AnonymousPatient)))
      && Holds(r', Manufacturer, Str(LO, OrElse(req.manufacturer, Unknown)))
      && (req.bodyPart.Some? && ConvertBodyPartId(req.bodyPart.value).Some? ==>
            Holds(r', BodyPartExamined, Str(CS, ConvertBodyPartId(req.bodyPart.value).value)))
  {
    assert ToUpperCase(DefaultModality) == "CT";
    ClinicalChainCT(OrElse(req.patientName, AnonymousPatient), OrElse(req.patientID, randomId),
      OrElse(req.manufacturer, Unknown), OrElse(req.institutionName, Unknown),
      if req.bodyPart.Some? then ConvertBodyPartId(req.bodyPart.value) else None, r);
  }

  /** Upper-casing gives "MR" exactly for the four spellings of "mr". */
  lemma UpperCaseMR(m: string)
    ensures ToUpperCase(m) == "MR" <==> m in {"mr", "mR", "Mr", "MR"}
  {
    if ToUpperCase(m) == "MR" {
      assert |m| == 2;
      assert m[0] == 'm' || m[0] == 'M';
      assert m[1] == 'r' || m[1] == 'R';
      assert m == [m[0], m[1]];
    }
  }

  /** The modality parameter is upper-cased first, so any spelling of "mr" selects the MR class injector. */
  lemma LowerCaseModality(req: Request, randomId: string, r: Record)
    requires req.modality.Some? && req.modality.value in {"mr", "mR", "Mr", "MR"}
    ensures var r' := Run(RequestChain(req, randomId), r);
      && Holds(r', Modality, Str(CS, "MR")) && Holds(r', SOPClassUID, Str(UI, MRSopClassUid))
      && Holds(r', PatientName, Str(PN, OrElse(req.patientName, AnonymousPatient)))
  {
    UpperCaseMR(req.modality.value);
    ClinicalChainMR(OrElse(req.patientName, AnonymousPatient), OrElse(req.patientID, randomId),
      OrElse(req.manufacturer, Unknown), OrElse(req.institutionName, Unknown),
      if req.bodyPart.Some? then ConvertBodyPartId(req.bodyPart.value) else None, r);
  }
}
