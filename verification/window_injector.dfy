/** WindowDicomInjector: stamps one VOI LUT window (DICOM PS3.3 section C.11.2) on a record. */
module WindowInjector {
  import opened Wrappers
  import opened Dicom

  const WindowTags: set<Tag> := {WindowCenter, WindowWidth}

  /** The injector's two immutable fields. */
  datatype WindowDicomInjector = WindowDicomInjector(center: real, width: real)
  {
    /** apply: WindowCenter and WindowWidth (DS) overwritten with the constructor values. */
    function Inject(r: Record): (r': Record)
      ensures Holds(r', WindowCenter, Dec(DS, center)) && Holds(r', WindowWidth, Dec(DS, width))
      ensures AgreeOutside(r, r', WindowTags)
    {
      r[WindowCenter := Dec(DS, center)][WindowWidth := Dec(DS, width)]
    }

    method Apply(obj: DicomObject) returns (result: DicomObject)
      modifies obj
      ensures result == obj && obj.elements == Inject(old(obj.elements))
    {
      obj.Put(WindowCenter, Dec(DS, center));
      obj.Put(WindowWidth, Dec(DS, width));
      result := obj;
    }
  }

  /**
   * The constructor: it refuses a width of at most 1.0 with an IllegalArgumentException
   * ("Invalid WindowWidth"); any injector it does build has width > 1.0 and keeps both values.
   */
  function NewWindowDicomInjector(center: real, width: real): (r: Result<WindowDicomInjector, string>)
    ensures r.Ok? <==> width > 1.0
    ensures r.Ok? ==> r.value.width > 1.0 && r.value == WindowDicomInjector(center, width)
    ensures r.Err? ==> r.error == "Invalid WindowWidth"
  {
    if width <= 1.0 then Err("Invalid WindowWidth") else Ok(WindowDicomInjector(center, width))
  }

  /** Applying the window twice gives the record applying it once does. */
  lemma WindowIdempotent(w: WindowDicomInjector, r: Record)
    ensures w.Inject(w.Inject(r)) == w.Inject(r)
  {
  }
}
