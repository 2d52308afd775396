# dicoogle-nifti conversion core in Dafny

A model of the NIfTI-1 to DICOM conversion engine of the dicoogle-nifti plugin, with proofs
about it. A decoded NIfTI-1 volume becomes a sequence of single-slice DICOM records. For each
channel `d` and then each slice `z`, a record is built in four steps:

- copy the converter's prototype;
- pack the slice's voxels into a PixelData byte buffer (`putPixelData`, `writeShort`);
- stamp a three-level UID hierarchy and the InstanceNumber;
- map the NIfTI-1 header onto the Image Pixel attributes (`NIFTIDicomInjector`).

A window computed once over the whole volume (`createWindowInjector`) is then applied to every
record. The injector chain the web servlet composes fills in the rest of the metadata: patient,
general clinic, body part, and a CT or MR modality class, combined with a builder. The servlet's
string helpers are modelled too: body-part codes, the gzip content-type test, and the
derivation of the series description and accession number from an entry's name. In a
multipart upload that name is the form field's name (`part.getName()`), not the submitted file
name; a request whose body is the volume itself passes no name.

Modules, one per file:

- `Wrappers`: Option and Result.
- `Dicom`: tags, VRs, elements, a record as `map<Tag, Element>`, and the mutable `DicomObject` with `Put`, `PutNull` and `Contains`.
- `Nifti`: datatype codes, the header and a volume seen as a voxel function.
- `JavaNum`: Java's narrowing casts, unsigned shifts and the double quotient, written out on unbounded integers and reals.
- `JavaStrings`: `indexOf`, `trim`, `split` with trailing empty strings dropped, `endsWith`, `replace` and `toUpperCase`.
- `PixelData`: `putPixelData` as nested loops over a byte `array`, proved against the pure packing `PixelSpec`.
- `Windowing`: `createWindowInjector` as four nested loops, proved against a scan over all voxels.
- `HeaderMapper`, `CTClassInjector`, `MRClassInjector`, `PatientInjector` and `WindowInjector`: each injector has a pure `Inject` on records and an `Apply` that updates a `DicomObject` in place.
- `InjectorBuilder`: the builder class, whose field `fn` accumulates steps; `Build` returns the steps and resets the field.
- `Converter`: the `NIFTIConverter` class with its prototype, a digit source standing for `java.util.Random`, and a draw counter. `Convert` is proved equal to a pure `Conversion`.
- `ConvertServlet`: `convertBodyPartId`, `isGzip`, `injectSeriesInfo`, `injectBodyPart` and the parameter defaulting of `doPost`.

Two behaviours of the code worth knowing:

- In `putPixelData`, the float path writes RescaleIntercept -1024 and RescaleSlope 1 unconditionally. The header mapper writes that pair only when it is absent, so the float values survive it (`Converter.FloatRescaleSurvives`).
- For an unmapped body-part code, `injectBodyPart` puts an empty BodyPartExamined (`putNull`).

## Model

| member | source | states |
|---|---|---|
| `Dicom.PutIfAbsent` | src/main/java/pt/ua/dicoogle/nifti/dicom/CTClassDicomInjector.java:59-64 | afterwards the tag is present, holding its old element when it had one and the given element otherwise |
| `Dicom.PutIfAbsentFrame` | src/main/java/pt/ua/dicoogle/nifti/dicom/CTClassDicomInjector.java:59-64 | set-if-absent changes no tag other than its own |
| `Dicom.PutIfAbsentPresent` | src/main/java/pt/ua/dicoogle/nifti/dicom/CTClassDicomInjector.java:59-64 | set-if-absent on a tag that is already present leaves the record unchanged |
| `Dicom.PutHeld` | src/main/java/pt/ua/dicoogle/nifti/dicom/WindowDicomInjector.java:45-46 | putting the element a tag already holds leaves the record unchanged (the step behind every idempotence lemma) |
| `Dicom.DicomObject.constructor` | src/main/java/pt/ua/dicoogle/nifti/convert/NIFTIConverterImpl.java:54 | a new object has no elements |
| `Dicom.DicomObject.Copy` | src/main/java/pt/ua/dicoogle/nifti/convert/NIFTIConverterImpl.java:95 | a copy holds exactly the prototype's elements |
| `Dicom.DicomObject.Put` | src/main/java/pt/ua/dicoogle/nifti/convert/NIFTIConverterImpl.java:99-103 | a put replaces one tag's element and keeps every other element |
| `Dicom.DicomObject.PutNull` | src/main/java/pt/ua/dicoogle/nifti/dicom/CTClassDicomInjector.java:76 | a putNull makes the tag present with an empty value of the given VR and keeps every other element |
| `Dicom.PutIfAbsentElement` | src/main/java/pt/ua/dicoogle/nifti/dicom/CTClassDicomInjector.java:59-64 | the in-place `if (!obj.contains(t)) put` yields PutIfAbsent of the old elements |
| `Dicom.PlaceholdElement` | src/main/java/pt/ua/dicoogle/nifti/dicom/CTClassDicomInjector.java:74-78 | placeholdElement yields the old elements with an empty element added only where the tag was absent |
| `Nifti.Datatype.BytesPerVoxel` | src/main/java/pt/ua/dicoogle/nifti/convert/NIFTIConverterImpl.java:125 | every NIfTI-1 datatype takes at least one byte per voxel |
| `Nifti.DatatypeOfCode` | src/main/java/pt/ua/dicoogle/nifti/convert/NIFTIConverterImpl.java:138-179 | each NIfTI-1 datatype code names the datatype whose code it is |
| `Nifti.CodeInjective` | src/main/java/pt/ua/dicoogle/nifti/convert/NIFTIConverterImpl.java:138-179 | two datatypes with the same code are the same datatype, so dispatching on the code is dispatching on the type |
| `JavaNum.Quotient` | src/main/java/pt/ua/dicoogle/nifti/convert/NIFTIConverterImpl.java:137 | the double quotient `(v - offset) / slope` is finite exactly when slope is non-zero, and then times slope gives back the dividend; it is NaN exactly for 0/0 |
| `JavaNum.Plus` | src/main/java/pt/ua/dicoogle/nifti/convert/NIFTIConverterImpl.java:167 | adding 1024 gives a finite double exactly when the input is finite, shifted by exactly that amount |
| `JavaNum.TruncateTowardZero` | src/main/java/pt/ua/dicoogle/nifti/convert/NIFTIConverterImpl.java:141 | the truncation a narrowing cast performs rounds toward zero, from above for negatives and from below otherwise |
| `JavaNum.DoubleToInt` | src/main/java/pt/ua/dicoogle/nifti/convert/NIFTIConverterImpl.java:154 | the `(int)` cast of a double lies in the int range, maps NaN to 0 and truncates every in-range value |
| `JavaNum.IntToShort` | src/main/java/pt/ua/dicoogle/nifti/convert/NIFTIConverterImpl.java:146 | the `(short)` cast lies in the short range, is congruent to its input modulo 2^16 and is the identity on shorts |
| `JavaNum.IntToByte` | src/main/java/pt/ua/dicoogle/nifti/convert/NIFTIConverterImpl.java:141 | the `(byte)` cast lies in the byte range, is congruent to its input modulo 2^8 and is the identity on bytes |
| `JavaNum.Unsigned32` | src/main/java/pt/ua/dicoogle/nifti/convert/NIFTIConverterImpl.java:154 | the unsigned reading of an int lies in 0..2^32-1 and is congruent to it modulo 2^32 |
| `JavaNum.UnsignedShiftRight16` | src/main/java/pt/ua/dicoogle/nifti/convert/NIFTIConverterImpl.java:154 | `i >>> 16` lies in 0..65535 and equals `i / 65536` for a non-negative int |
| `JavaNum.UnsignedShiftRight8` | src/main/java/pt/ua/dicoogle/nifti/convert/NIFTIConverterImpl.java:213 | `value >>> 8` of an int lies in 0..2^24-1 |
| `JavaNum.ShortRoundTrip` | src/main/java/pt/ua/dicoogle/nifti/convert/NIFTIConverterImpl.java:211-214 | decoding `(b0 & 0xFF) | (b1 << 8)` from writeShort's low and high bytes gives back every short |
| `JavaNum.ByteRoundTrip` | src/main/java/pt/ua/dicoogle/nifti/convert/NIFTIConverterImpl.java:141 | narrowing the stored low byte gives back every byte value |
| `JavaStrings.Replace` | src/main/java/pt/ua/dicoogle/nifti/convert/NIFTIConverterImpl.java:252 | `replace(from, to)` keeps the length, maps each `from` to `to` and every other character to itself, and leaves no `from` behind |
| `JavaStrings.IndexOf` | src/main/java/pt/ua/dicoogle/nifti/ws/NIFTIConvertWebServlet.java:234 | `indexOf(c)` is -1 exactly when c does not occur, and otherwise the position of the first c |
| `JavaStrings.TrimStart` | src/main/java/pt/ua/dicoogle/nifti/ws/NIFTIConvertWebServlet.java:265 | the leading part `trim()` removes is all white space and the result does not start with white space |
| `JavaStrings.TrimEnd` | src/main/java/pt/ua/dicoogle/nifti/ws/NIFTIConvertWebServlet.java:265 | the trailing part `trim()` removes is all white space and the result does not end with white space |
| `JavaStrings.SegmentBefore` | src/main/java/pt/ua/dicoogle/nifti/ws/NIFTIConvertWebServlet.java:265 | the segment before the first c is a c-free prefix followed by c or by the end of the string |
| `JavaStrings.SplitAll` | src/main/java/pt/ua/dicoogle/nifti/ws/NIFTIConvertWebServlet.java:251 | splitting on c yields at least one piece, the first being the segment before the first c |
| `JavaStrings.DropTrailingEmpty` | src/main/java/pt/ua/dicoogle/nifti/ws/NIFTIConvertWebServlet.java:251 | `split` drops exactly the trailing empty pieces: the result is a prefix that ends in a non-empty piece, and only empty pieces were dropped |
| `JavaStrings.SplitAllEmpty` | src/main/java/pt/ua/dicoogle/nifti/ws/NIFTIConvertWebServlet.java:265 | every piece of a split is empty exactly when the string consists of the separator alone |
| `JavaStrings.OnlyCharSplitsEmpty` | src/main/java/pt/ua/dicoogle/nifti/ws/NIFTIConvertWebServlet.java:265 | a string made of the separator alone splits into empty pieces only |
| `JavaStrings.EmptySplitsOnlyChar` | src/main/java/pt/ua/dicoogle/nifti/ws/NIFTIConvertWebServlet.java:265 | a string that splits into empty pieces only is made of the separator alone |
| `JavaStrings.SplitFirst` | src/main/java/pt/ua/dicoogle/nifti/ws/NIFTIConvertWebServlet.java:265 | `split(";")` is empty exactly for a non-empty string of ';' alone, and otherwise its element 0 is the segment before the first ';' |
| `JavaStrings.SplitAllJoin` | src/main/java/pt/ua/dicoogle/nifti/ws/NIFTIConvertWebServlet.java:251 | a c-free field followed by c splits into that field followed by the pieces of the rest |
| `JavaStrings.SplitAllTwo` | src/main/java/pt/ua/dicoogle/nifti/ws/NIFTIConvertWebServlet.java:251 | two c-free fields joined by c split back into exactly those two fields |
| `JavaStrings.SplitAllThree` | src/main/java/pt/ua/dicoogle/nifti/ws/NIFTIConvertWebServlet.java:251 | three c-free fields joined by c split back into those three fields |
| `JavaStrings.SplitThree` | src/main/java/pt/ua/dicoogle/nifti/ws/NIFTIConvertWebServlet.java:251-254 | `split("_")` of three '_'-free fields joined by '_', the last non-empty, gives back exactly those three fields |
| `JavaStrings.ToUpperCase` | src/main/java/pt/ua/dicoogle/nifti/ws/NIFTIConvertWebServlet.java:179 | upper-casing keeps the length, turns each letter a-z into its capital and keeps every other character |
| `JavaStrings.ToUpperCaseIdempotent` | src/main/java/pt/ua/dicoogle/nifti/ws/NIFTIConvertWebServlet.java:179 | upper-casing twice is upper-casing once |
| `PixelData.UnitSize` | src/main/java/pt/ua/dicoogle/nifti/convert/NIFTIConverterImpl.java:125-128 | the unit is 1 or 2 bytes, and 1 exactly for INT8/UINT8 |
| `PixelData.SupportedTypes` | src/main/java/pt/ua/dicoogle/nifti/convert/NIFTIConverterImpl.java:138-179 | the packer accepts exactly INT8, UINT8, INT16, UINT16, INT32, UINT32, FLOAT32 and FLOAT64, and packs bytes exactly when the unit is one byte |
| `PixelData.PackingFacts` | src/main/java/pt/ua/dicoogle/nifti/convert/NIFTIConverterImpl.java:138-177 | for an accepted datatype, the unit is one byte exactly on the byte path and the type is floating exactly on the offset-short path |
| `PixelData.Normalized` | src/main/java/pt/ua/dicoogle/nifti/convert/NIFTIConverterImpl.java:136-137 | with a non-zero slope each voxel is normalised to `(v - scl_inter) / scl_slope` |
| `PixelData.Sample` | src/main/java/pt/ua/dicoogle/nifti/convert/NIFTIConverterImpl.java:139-177 | a stored sample lies in the byte range on the byte path and in the short range otherwise |
| `PixelData.SampleExact` | src/main/java/pt/ua/dicoogle/nifti/convert/NIFTIConverterImpl.java:139-149 | an integral value in range is stored exactly by the byte and short paths |
| `PixelData.SampleOffset` | src/main/java/pt/ua/dicoogle/nifti/convert/NIFTIConverterImpl.java:164-177 | on the float path the stored short minus 1024 gives back an integral value in range |
| `PixelData.SampleHigh` | src/main/java/pt/ua/dicoogle/nifti/convert/NIFTIConverterImpl.java:150-156 | on the int path a non-negative value keeps its high 16 bits, `v / 65536` |
| `PixelData.Row` | src/main/java/pt/ua/dicoogle/nifti/convert/NIFTIConverterImpl.java:135-136 | one row has sizeX samples |
| `PixelData.Rows` | src/main/java/pt/ua/dicoogle/nifti/convert/NIFTIConverterImpl.java:134-136 | n rows have n * sizeX samples |
| `PixelData.SliceSamples` | src/main/java/pt/ua/dicoogle/nifti/convert/NIFTIConverterImpl.java:134-136 | a slice has sizeX * sizeY samples |
| `PixelData.RowsAt` | src/main/java/pt/ua/dicoogle/nifti/convert/NIFTIConverterImpl.java:134-136 | the sample at index `y * sizeX + x` is the packed normalised voxel (x, y): y outer, x inner |
| `PixelData.EncodeOne` | src/main/java/pt/ua/dicoogle/nifti/convert/NIFTIConverterImpl.java:141-147 | one sample takes exactly one unit of bytes |
| `PixelData.EncodeBytes` | src/main/java/pt/ua/dicoogle/nifti/convert/NIFTIConverterImpl.java:141 | byte packing writes one byte per sample |
| `PixelData.EncodeShorts` | src/main/java/pt/ua/dicoogle/nifti/convert/NIFTIConverterImpl.java:147 | short packing writes two bytes per sample |
| `PixelData.Encode` | src/main/java/pt/ua/dicoogle/nifti/convert/NIFTIConverterImpl.java:129 | the packed slice has `samples * unit` bytes |
| `PixelData.EncodeAppend` | src/main/java/pt/ua/dicoogle/nifti/convert/NIFTIConverterImpl.java:181 | packing one more sample appends exactly one unit, so the index advances by the unit per voxel |
| `PixelData.EncodeBytesAt` | src/main/java/pt/ua/dicoogle/nifti/convert/NIFTIConverterImpl.java:141 | byte i of a byte-packed slice is the low byte of sample i |
| `PixelData.EncodeShortsAt` | src/main/java/pt/ua/dicoogle/nifti/convert/NIFTIConverterImpl.java:211-214 | bytes 2i and 2i+1 of a short-packed slice are sample i's low and high byte (little endian) |
| `PixelData.DecodeShorts` | src/main/java/pt/ua/dicoogle/nifti/convert/NIFTIConverterImpl.java:211-214 | decoding pairs of bytes gives one sample per pair |
| `PixelData.DecodeBytes` | src/main/java/pt/ua/dicoogle/nifti/convert/NIFTIConverterImpl.java:141 | decoding bytes gives one sample per byte |
| `PixelData.RowsInRange` | src/main/java/pt/ua/dicoogle/nifti/convert/NIFTIConverterImpl.java:134-136 | every packed sample of the slice lies in the range of its unit: a byte on the byte path, a short otherwise |
| `PixelData.Int16VoxelRoundTrip` | src/main/java/pt/ua/dicoogle/nifti/convert/NIFTIConverterImpl.java:129-184 | for an INT16 volume with identity rescale, the slice's PixelData is produced and decoding it as little-endian shorts gives back voxel (x, y) at index y * sizeX + x |
| `PixelData.Int8VoxelRoundTrip` | src/main/java/pt/ua/dicoogle/nifti/convert/NIFTIConverterImpl.java:129-184 | for an INT8 volume with identity rescale, the slice's PixelData is produced and decoding its bytes gives back voxel (x, y) at index y * sizeX + x |
| `PixelData.ShortsRoundTrip` | src/main/java/pt/ua/dicoogle/nifti/convert/NIFTIConverterImpl.java:211-214 | decoding short-packed samples gives back every sequence of shorts |
| `PixelData.ShortsRoundTripAt` | src/main/java/pt/ua/dicoogle/nifti/convert/NIFTIConverterImpl.java:211-214 | decoding the short packing gives back each sample that fits in a short, at its own index |
| `PixelData.BytesRoundTripAt` | src/main/java/pt/ua/dicoogle/nifti/convert/NIFTIConverterImpl.java:141 | decoding the byte packing gives back each sample that fits in a byte, at its own index |
| `PixelData.BytesRoundTrip` | src/main/java/pt/ua/dicoogle/nifti/convert/NIFTIConverterImpl.java:141 | decoding byte-packed samples gives back every sequence of bytes |
| `PixelData.SlicePixels` | src/main/java/pt/ua/dicoogle/nifti/convert/NIFTIConverterImpl.java:124-184 | pixel extraction fails exactly for a non-empty slice of an unsupported datatype, naming that datatype; otherwise PixelData has VR OB exactly when the unit is one byte, and `sizeX * sizeY * unit` bytes |
| `PixelData.PixelSpec` | src/main/java/pt/ua/dicoogle/nifti/convert/NIFTIConverterImpl.java:124-185 | putPixelData fails exactly for a non-empty slice of an unsupported datatype, naming that datatype |
| `PixelData.PixelSpecProperties` | src/main/java/pt/ua/dicoogle/nifti/convert/NIFTIConverterImpl.java:164-184 | a successful putPixelData holds the slice's PixelData; on the float path it writes RescaleIntercept -1024 and RescaleSlope 1; otherwise only PixelData changes, and nothing outside those three tags ever changes |
| `PixelData.PixelSpecSupported` | src/main/java/pt/ua/dicoogle/nifti/convert/NIFTIConverterImpl.java:129-184 | for an accepted datatype the record gets the rescale of the float path and PixelData holding the packed samples of the slice |
| `PixelData.PixelSpecUnsupportedEmpty` | src/main/java/pt/ua/dicoogle/nifti/convert/NIFTIConverterImpl.java:134-184 | an unsupported datatype with an empty slice does not fail: no voxel is visited and an empty PixelData is written |
| `PixelData.WriteShort` | src/main/java/pt/ua/dicoogle/nifti/convert/NIFTIConverterImpl.java:211-214 | writeShort puts the low byte at `offset` and the high byte at `offset + 1`, these decode back to the value, and no other cell changes |
| `PixelData.PutSample` | src/main/java/pt/ua/dicoogle/nifti/convert/NIFTIConverterImpl.java:139-181 | one dispatch step appends one unit holding the sample to the written prefix of the buffer, and on the float path also writes the rescale |
| `PixelData.PutFloatRescaleTwice` | src/main/java/pt/ua/dicoogle/nifti/convert/NIFTIConverterImpl.java:165-166 | writing the float rescale again, as the loop does for every voxel, changes nothing |
| `PixelData.PutVoxel` | src/main/java/pt/ua/dicoogle/nifti/convert/NIFTIConverterImpl.java:136-181 | one voxel appends its sample to the packed prefix and keeps the write index at the prefix's byte length |
| `PixelData.PutRowSamples` | src/main/java/pt/ua/dicoogle/nifti/convert/NIFTIConverterImpl.java:135-182 | the inner x loop appends the row's samples in order, without writing outside the buffer |
| `PixelData.PutRow` | src/main/java/pt/ua/dicoogle/nifti/convert/NIFTIConverterImpl.java:135-182 | one row either fails at its first voxel with UnsupportedDatatype and leaves the record unchanged, or appends the row's samples |
| `PixelData.PutRows` | src/main/java/pt/ua/dicoogle/nifti/convert/NIFTIConverterImpl.java:134-183 | the y loop either fails with UnsupportedDatatype, leaving the record unchanged, or fills the buffer with all sizeX * sizeY samples, the index ending exactly at the buffer length |
| `PixelData.PutPixelData` | src/main/java/pt/ua/dicoogle/nifti/convert/NIFTIConverterImpl.java:124-185 | putPixelData on the object either reports PixelSpec's error and leaves the object unchanged, or leaves exactly PixelSpec's record |
| `Windowing.Visit` | src/main/java/pt/ua/dicoogle/nifti/convert/NIFTIConverterImpl.java:196-201 | one visit lowers min to v only when v is smaller and raises max to v only when v is larger |
| `Windowing.ScanAppend` | src/main/java/pt/ua/dicoogle/nifti/convert/NIFTIConverterImpl.java:191-205 | scanning two runs of voxels is scanning the first and continuing from its result |
| `Windowing.ScanBounds` | src/main/java/pt/ua/dicoogle/nifti/convert/NIFTIConverterImpl.java:196-201 | after a scan every visited value lies between min and max, which only moved outwards |
| `Windowing.ScanAttained` | src/main/java/pt/ua/dicoogle/nifti/convert/NIFTIConverterImpl.java:196-201 | after a scan min and max are each either the starting value or a visited value |
| `Windowing.RowVoxels` | src/main/java/pt/ua/dicoogle/nifti/convert/NIFTIConverterImpl.java:194-195 | one row of the scan visits sizeX voxels |
| `Windowing.InSlice` | src/main/java/pt/ua/dicoogle/nifti/convert/NIFTIConverterImpl.java:193-195 | every voxel of a slice is visited by the y/x loops |
| `Windowing.InChannel` | src/main/java/pt/ua/dicoogle/nifti/convert/NIFTIConverterImpl.java:192-195 | every voxel of a channel is visited by the z/y/x loops |
| `Windowing.InVolumeVoxels` | src/main/java/pt/ua/dicoogle/nifti/convert/NIFTIConverterImpl.java:191-195 | every voxel of the volume is visited by the d/z/y/x loops |
| `Windowing.VoxelVisited` | src/main/java/pt/ua/dicoogle/nifti/convert/NIFTIConverterImpl.java:191-205 | every voxel inside the volume's extents is visited |
| `Windowing.WindowFor` | src/main/java/pt/ua/dicoogle/nifti/dicom/WindowDicomInjector.java:35-41 | the window exists exactly when max - min > 1.0, with center (max + min) / 2 and width max - min; otherwise it is the Invalid WindowWidth error |
| `Windowing.VolumeExtentIsMinMax` | src/main/java/pt/ua/dicoogle/nifti/convert/NIFTIConverterImpl.java:188-205 | min and max bound every voxel, start from Double.MAX_VALUE and Double.MIN_VALUE, and are each either that start or a voxel value |
| `Windowing.EmptyVolumeHasNoWindow` | src/main/java/pt/ua/dicoogle/nifti/convert/NIFTIConverterImpl.java:188-208 | a volume without voxels has no window |
| `Windowing.NegativeVolumeMax` | src/main/java/pt/ua/dicoogle/nifti/convert/NIFTIConverterImpl.java:189 | when every voxel is negative, max stays at Double.MIN_VALUE |
| `Windowing.ScanRow` | src/main/java/pt/ua/dicoogle/nifti/convert/NIFTIConverterImpl.java:194-202 | the x loop leaves min and max at the scan of the row |
| `Windowing.ScanSlice` | src/main/java/pt/ua/dicoogle/nifti/convert/NIFTIConverterImpl.java:193-203 | the y loop leaves min and max at the scan of the slice |
| `Windowing.ScanChannel` | src/main/java/pt/ua/dicoogle/nifti/convert/NIFTIConverterImpl.java:192-204 | the z loop leaves min and max at the scan of the channel |
| `Windowing.CreateWindowInjector` | src/main/java/pt/ua/dicoogle/nifti/convert/NIFTIConverterImpl.java:187-209 | the four nested loops and the constructor yield exactly WindowFor of the volume |
| `WindowInjector.WindowDicomInjector.Inject` | src/main/java/pt/ua/dicoogle/nifti/dicom/WindowDicomInjector.java:44-48 | apply sets WindowCenter and WindowWidth (DS) to the constructor values and changes no other tag |
| `WindowInjector.WindowDicomInjector.Apply` | src/main/java/pt/ua/dicoogle/nifti/dicom/WindowDicomInjector.java:44-48 | apply on the object leaves Inject of its old elements and returns the same object |
| `WindowInjector.NewWindowDicomInjector` | src/main/java/pt/ua/dicoogle/nifti/dicom/WindowDicomInjector.java:35-41 | construction succeeds exactly when width > 1.0, keeping both values; otherwise it fails with "Invalid WindowWidth" |
| `WindowInjector.WindowIdempotent` | src/main/java/pt/ua/dicoogle/nifti/dicom/WindowDicomInjector.java:44-48 | applying the window twice is applying it once |
| `HeaderMapper.AllocatedBits` | src/main/java/pt/ua/dicoogle/nifti/convert/NIFTIConverterImpl.java:254-259 | BitsAllocated is bitpix, capped at 16 |
| `HeaderMapper.Slope` | src/main/java/pt/ua/dicoogle/nifti/convert/NIFTIConverterImpl.java:255-259 | the slope is scl_slope, multiplied by bitpix / 16 when bitpix > 16 |
| `HeaderMapper.Description` | src/main/java/pt/ua/dicoogle/nifti/convert/NIFTIConverterImpl.java:252 | the description keeps its length; each '\\' becomes '!' and every other character is kept; it contains no '\\' |
| `HeaderMapper.NIFTIDicomInjector.PutImage` | src/main/java/pt/ua/dicoogle/nifti/convert/NIFTIConverterImpl.java:247-252 | the image puts leave the image attributes of the pure mapping |
| `HeaderMapper.NIFTIDicomInjector.PutBits` | src/main/java/pt/ua/dicoogle/nifti/convert/NIFTIConverterImpl.java:254-265 | the bit puts leave the bit attributes of the pure mapping |
| `HeaderMapper.NIFTIDicomInjector.PutRescale` | src/main/java/pt/ua/dicoogle/nifti/convert/NIFTIConverterImpl.java:266-271 | the guarded rescale puts leave the rescale attributes of the pure mapping |
| `HeaderMapper.NIFTIDicomInjector.PutGeometry` | src/main/java/pt/ua/dicoogle/nifti/convert/NIFTIConverterImpl.java:274-282 | the geometry puts leave the geometry attributes of the pure mapping |
| `HeaderMapper.NIFTIDicomInjector.Apply` | src/main/java/pt/ua/dicoogle/nifti/convert/NIFTIConverterImpl.java:245-284 | apply on the object leaves Inject of its old elements and returns the same object |
| `HeaderMapper.HeaderImage` | src/main/java/pt/ua/dicoogle/nifti/convert/NIFTIConverterImpl.java:247-252 | Columns, Rows, ImagesInAcquisition and SamplesPerPixel are dim[1..4], and StudyDescription is the description with '\\' replaced by '!' |
| `HeaderMapper.ImageKept` | src/main/java/pt/ua/dicoogle/nifti/convert/NIFTIConverterImpl.java:247-284 | the later steps of apply do not touch the image attributes |
| `HeaderMapper.HeaderBits` | src/main/java/pt/ua/dicoogle/nifti/convert/NIFTIConverterImpl.java:254-265 | BitsAllocated = BitsStored = min(bitpix, 16) and HighBit is one less; PixelRepresentation is 0 exactly for the unsigned types and 1 exactly for the others |
| `HeaderMapper.HeaderRescale` | src/main/java/pt/ua/dicoogle/nifti/convert/NIFTIConverterImpl.java:266-271 | RescaleSlope and RescaleIntercept keep a value already present and otherwise get the header's slope and intercept |
| `HeaderMapper.HeaderGeometry` | src/main/java/pt/ua/dicoogle/nifti/convert/NIFTIConverterImpl.java:274-282 | SliceThickness is pixdim[3], PixelSpacing is [pixdim[1], pixdim[2]], and ImageOrientation and ImagePosition are zero vectors |
| `HeaderMapper.HeaderFrame` | src/main/java/pt/ua/dicoogle/nifti/convert/NIFTIConverterImpl.java:245-284 | the mapper changes no tag outside the image, bit, rescale and geometry attributes |
| `HeaderMapper.ImageHeld` | src/main/java/pt/ua/dicoogle/nifti/convert/NIFTIConverterImpl.java:247-252 | on a record already holding the image attributes, the image puts change nothing |
| `HeaderMapper.BitsHeld` | src/main/java/pt/ua/dicoogle/nifti/convert/NIFTIConverterImpl.java:254-265 | on a record already holding the bit attributes, the bit puts change nothing |
| `HeaderMapper.GeometryHeld` | src/main/java/pt/ua/dicoogle/nifti/convert/NIFTIConverterImpl.java:274-282 | on a record already holding the geometry attributes, the geometry puts change nothing |
| `HeaderMapper.HeaderIdempotent` | src/main/java/pt/ua/dicoogle/nifti/convert/NIFTIConverterImpl.java:245-284 | applying the header mapper twice is applying it once |
| `CTClassInjector.CTClassDicomInjector.Inject` | src/main/java/pt/ua/dicoogle/nifti/dicom/CTClassDicomInjector.java:54-71 | the CT injector changes no tag outside its eight |
| `CTClassInjector.CTClassDicomInjector.Overwrite` | src/main/java/pt/ua/dicoogle/nifti/dicom/CTClassDicomInjector.java:55-58 | the four unconditional puts set Modality, SOPClassUID, ImageType and PhotometricInterpretation, and touch nothing else |
| `CTClassInjector.CTClassDicomInjector.Apply` | src/main/java/pt/ua/dicoogle/nifti/dicom/CTClassDicomInjector.java:53-71 | apply on the object leaves Inject of its old elements and returns the same object |
| `CTClassInjector.CTDefaults` | src/main/java/pt/ua/dicoogle/nifti/dicom/CTClassDicomInjector.java:59-68 | the guarded puts keep every present element and add RescaleIntercept 0.0, RescaleSlope 1.0 and empty KVP (DS) and AcquisitionNumber (IS) only where absent |
| `CTClassInjector.CTInjectFixed` | src/main/java/pt/ua/dicoogle/nifti/dicom/CTClassDicomInjector.java:55-58 | after apply, Modality is "CT", SOPClassUID is the CT class UID, and ImageType and PhotometricInterpretation are the configured names |
| `CTClassInjector.CTInjectDefaults` | src/main/java/pt/ua/dicoogle/nifti/dicom/CTClassDicomInjector.java:59-68 | after apply, the rescale attributes and the Type 2 placeholders keep their earlier value or get the default |
| `CTClassInjector.CTIdempotent` | src/main/java/pt/ua/dicoogle/nifti/dicom/CTClassDicomInjector.java:54-71 | applying the CT injector twice is applying it once |
| `CTClassInjector.DefaultCTOnEmptyRecord` | src/test/java/pt/ua/dicoogle/nifti/dicom/DicomInjectorTest.java:56-65 | the default CT injector on an empty record yields exactly Modality CT, the CT SOP class, AXIAL, MONOCHROME2, the two rescale defaults and two empty placeholders |
| `MRClassInjector.MRImageType.DicomValue` | src/main/java/pt/ua/dicoogle/nifti/dicom/MRClassDicomInjector.java:43-45 | the DICOM value is the enum name with every '_' replaced by ' ' |
| `MRClassInjector.Names` | src/main/java/pt/ua/dicoogle/nifti/dicom/MRClassDicomInjector.java:118-126 | the array holds one name per list element, in list order |
| `MRClassInjector.MRClassDicomInjector.Inject` | src/main/java/pt/ua/dicoogle/nifti/dicom/MRClassDicomInjector.java:97-115 | the MR injector changes no tag outside its twelve |
| `MRClassInjector.MRClassDicomInjector.Overwrite` | src/main/java/pt/ua/dicoogle/nifti/dicom/MRClassDicomInjector.java:98-104 | the unconditional puts set the six fixed attributes and touch nothing else |
| `MRClassInjector.MRClassDicomInjector.Apply` | src/main/java/pt/ua/dicoogle/nifti/dicom/MRClassDicomInjector.java:96-115 | apply on the object leaves Inject of its old elements and returns the same object |
| `MRClassInjector.PlaceholdMR` | src/main/java/pt/ua/dicoogle/nifti/dicom/MRClassDicomInjector.java:107-112 | the six placeholders keep present elements and add empty ones of the right VR only where absent |
| `MRClassInjector.PlaceholdAcquisition` | src/main/java/pt/ua/dicoogle/nifti/dicom/MRClassDicomInjector.java:107-109 | ScanOptions, MRAcquisitionType and RepetitionTime are added empty only where absent |
| `MRClassInjector.PlaceholdTiming` | src/main/java/pt/ua/dicoogle/nifti/dicom/MRClassDicomInjector.java:110-112 | EchoTime, EchoTrainLength and InversionTime are added empty only where absent |
| `MRClassInjector.PutCSElements` | src/main/java/pt/ua/dicoogle/nifti/dicom/MRClassDicomInjector.java:118-126 | putCSElements sets the tag to a multi-valued CS element holding the names in list order and keeps the rest |
| `MRClassInjector.MRSingle` | src/main/java/pt/ua/dicoogle/nifti/dicom/MRClassDicomInjector.java:84-86 | the single-sequence constructor wraps its sequence and variant in one-element lists |
| `MRClassInjector.MROfType` | src/main/java/pt/ua/dicoogle/nifti/dicom/MRClassDicomInjector.java:88-94 | the type-only constructor (and the default, with OTHER) uses MONOCHROME2, [RM] and [NONE] |
| `MRClassInjector.MRInjectFixed` | src/main/java/pt/ua/dicoogle/nifti/dicom/MRClassDicomInjector.java:98-104 | after apply, Modality is "MR", SOPClassUID is the MR class UID, ImageType is the DICOM value of the type, and the two sequences hold their names |
| `MRClassInjector.MRInjectPlaceholders` | src/main/java/pt/ua/dicoogle/nifti/dicom/MRClassDicomInjector.java:106-112 | after apply, each Type 2 attribute keeps its earlier value or is empty |
| `MRClassInjector.MRIdempotent` | src/main/java/pt/ua/dicoogle/nifti/dicom/MRClassDicomInjector.java:97-115 | applying the MR injector twice is applying it once |
| `MRClassInjector.OverwriteHeld` | src/main/java/pt/ua/dicoogle/nifti/dicom/MRClassDicomInjector.java:98-104 | on a record already holding the fixed attributes the unconditional puts change nothing |
| `MRClassInjector.PlaceholdPresent` | src/main/java/pt/ua/dicoogle/nifti/dicom/MRClassDicomInjector.java:129-133 | when all six Type 2 tags are present the placeholders change nothing |
| `MRClassInjector.MapDicomValues` | src/main/java/pt/ua/dicoogle/nifti/dicom/MRClassDicomInjector.java:43-45 | T1_MAP and T2_MAP are written as "T1 MAP" and "T2 MAP" |
| `PatientInjector.PatientDicomInjector.Inject` | src/main/java/pt/ua/dicoogle/nifti/dicom/PatientDicomInjector.java:43-51 | PatientName (PN) is set exactly when a name is given, PatientID (LO) exactly when an ID is given, and nothing else changes |
| `PatientInjector.PatientDicomInjector.Apply` | src/main/java/pt/ua/dicoogle/nifti/dicom/PatientDicomInjector.java:42-51 | apply on the object leaves Inject of its old elements and returns the same object |
| `PatientInjector.PatientNullIsIdentity` | src/main/java/pt/ua/dicoogle/nifti/dicom/PatientDicomInjector.java:43-51 | with neither name nor ID the record is unchanged |
| `PatientInjector.PatientIdempotent` | src/main/java/pt/ua/dicoogle/nifti/dicom/PatientDicomInjector.java:43-51 | applying the patient injector twice is applying it once |
| `InjectorBuilder.GeneralClinicDicomInjector.Inject` | src/main/java/pt/ua/dicoogle/nifti/dicom/DicomInjectorBuilder.java:40-43 | the general clinic step sets Manufacturer and InstitutionName (LO) and nothing else |
| `InjectorBuilder.GeneralClinicDicomInjector.Apply` | src/main/java/pt/ua/dicoogle/nifti/dicom/DicomInjectorBuilder.java:40-43 | apply on the object leaves Inject of its old elements and returns the same object |
| `InjectorBuilder.BodyPartDicomInjector.Inject` | src/main/java/pt/ua/dicoogle/nifti/dicom/DicomInjectorBuilder.java:89-92 | the body part step sets BodyPartExamined (CS) when a body part is given; for a null body part the model assumes it changes nothing |
| `InjectorBuilder.BodyPartDicomInjector.Apply` | src/main/java/pt/ua/dicoogle/nifti/dicom/DicomInjectorBuilder.java:89-92 | apply on the object leaves Inject of its old elements and returns the same object |
| `InjectorBuilder.RunAppend` | src/main/java/pt/ua/dicoogle/nifti/dicom/DicomInjectorBuilder.java:40-91 | `andThen` composition: running two appended step lists is running the first and then the second |
| `InjectorBuilder.ApplyStep` | src/main/java/pt/ua/dicoogle/nifti/dicom/DicomInjectorBuilder.java:96 | applying one composed step to the object leaves that step's Inject of the old elements |
| `InjectorBuilder.ApplyAll` | src/main/java/pt/ua/dicoogle/nifti/dicom/DicomInjectorBuilder.java:94-99 | the built injector applies the steps in the order they were added |
| `InjectorBuilder.ModalityCT` | src/main/java/pt/ua/dicoogle/nifti/dicom/DicomInjectorBuilder.java:65-66 | modality "CT" gives Modality CT, the CT SOP class and AXIAL |
| `InjectorBuilder.ModalityMR` | src/main/java/pt/ua/dicoogle/nifti/dicom/DicomInjectorBuilder.java:67-74 | "MR", "MRT1" and "MRT2" give Modality MR, the MR SOP class and ImageType OTHER, T1 MAP or T2 MAP |
| `InjectorBuilder.ModalityOther` | src/main/java/pt/ua/dicoogle/nifti/dicom/DicomInjectorBuilder.java:75-80 | any other modality string only sets Modality (CS) to exactly that string; matching is case-sensitive |
| `InjectorBuilder.DicomInjectorBuilder.constructor` | src/main/java/pt/ua/dicoogle/nifti/dicom/DicomInjectorBuilder.java:36-38 | a fresh builder holds no steps, i.e. the identity |
| `InjectorBuilder.DicomInjectorBuilder.Patient` | src/main/java/pt/ua/dicoogle/nifti/dicom/DicomInjectorBuilder.java:84-87 | patient appends a patient step after the existing ones |
| `InjectorBuilder.DicomInjectorBuilder.GeneralClinic` | src/main/java/pt/ua/dicoogle/nifti/dicom/DicomInjectorBuilder.java:40-43 | generalClinic appends a general clinic step |
| `InjectorBuilder.DicomInjectorBuilder.CTOf` | src/main/java/pt/ua/dicoogle/nifti/dicom/DicomInjectorBuilder.java:45-48 | CT(type, photometric) appends that CT step |
| `InjectorBuilder.DicomInjectorBuilder.CT` | src/main/java/pt/ua/dicoogle/nifti/dicom/DicomInjectorBuilder.java:50-53 | CT() appends the default CT step |
| `InjectorBuilder.DicomInjectorBuilder.MR` | src/main/java/pt/ua/dicoogle/nifti/dicom/DicomInjectorBuilder.java:55-58 | MR() appends the default MR step |
| `InjectorBuilder.DicomInjectorBuilder.Modality` | src/main/java/pt/ua/dicoogle/nifti/dicom/DicomInjectorBuilder.java:60-82 | a missing modality throws NullPointerException("modality") and leaves the steps unchanged; any other appends the modality's step |
| `InjectorBuilder.DicomInjectorBuilder.BodyPart` | src/main/java/pt/ua/dicoogle/nifti/dicom/DicomInjectorBuilder.java:89-92 | bodyPart appends a body part step |
| `InjectorBuilder.DicomInjectorBuilder.Build` | src/main/java/pt/ua/dicoogle/nifti/dicom/DicomInjectorBuilder.java:94-99 | build returns the accumulated steps and resets the builder to the identity |
| `InjectorBuilder.BeforeModality` | src/main/java/pt/ua/dicoogle/nifti/dicom/DicomInjectorBuilder.java:84-92 | the patient, clinic and body part steps set PatientName, PatientID, Manufacturer, InstitutionName and a given BodyPartExamined |
| `InjectorBuilder.ClinicalChainSteps` | src/main/java/pt/ua/dicoogle/nifti/dicom/DicomInjectorBuilder.java:94-99 | the chain patient, clinic, body part, modality is the modality step applied after the other three |
| `InjectorBuilder.ClinicalChainCT` | src/test/java/pt/ua/dicoogle/nifti/dicom/DicomInjectorTest.java:68-86 | the chain with "CT" yields Modality CT, the CT SOP class, ImageType and PhotometricInterpretation, PatientName, Manufacturer and the given BodyPartExamined |
| `InjectorBuilder.DefaultCTKeeps` | src/main/java/pt/ua/dicoogle/nifti/dicom/CTClassDicomInjector.java:54-71 | the default CT injector keeps PatientName, Manufacturer and BodyPartExamined |
| `InjectorBuilder.ClinicalChainMR` | src/test/java/pt/ua/dicoogle/nifti/dicom/DicomInjectorTest.java:88-106 | the chain with "MR" yields Modality MR, the MR SOP class, ImageType, PhotometricInterpretation, ScanningSequence, PatientName and Manufacturer |
| `InjectorBuilder.DefaultMRKeeps` | src/main/java/pt/ua/dicoogle/nifti/dicom/MRClassDicomInjector.java:97-115 | the default MR injector keeps PatientName and Manufacturer |
| `InjectorBuilder.MRKeeps` | src/main/java/pt/ua/dicoogle/nifti/dicom/MRClassDicomInjector.java:97-115 | any MR injector keeps every tag outside its own |
| `Converter.DigitChar` | src/main/java/pt/ua/dicoogle/nifti/convert/NIFTIConverterImpl.java:111 | `'0' + rnd.nextInt(10)` is a decimal digit |
| `Converter.UidTerm` | src/main/java/pt/ua/dicoogle/nifti/convert/NIFTIConverterImpl.java:108-114 | a UID term has exactly `size` characters, each a decimal digit |
| `Converter.Stamp` | src/main/java/pt/ua/dicoogle/nifti/convert/NIFTIConverterImpl.java:99-103 | the stamp sets the study, series and SOP instance UIDs, FrameOfReferenceUID = instance + ".0" and InstanceNumber = nz + 1, and nothing else |
| `Converter.SliceSpec` | src/main/java/pt/ua/dicoogle/nifti/convert/NIFTIConverterImpl.java:94-106 | converting a slice fails exactly when its pixels cannot be packed, with UnsupportedDatatype |
| `Converter.SliceStamped` | src/main/java/pt/ua/dicoogle/nifti/convert/NIFTIConverterImpl.java:97-105 | the converted slice holds the stamped UIDs, InstanceNumber nz + 1 and the slice's PixelData, which the header mapper does not overwrite |
| `Converter.FloatRescaleSurvives` | src/main/java/pt/ua/dicoogle/nifti/convert/NIFTIConverterImpl.java:164-173 | for a float volume the -1024/1 rescale of putPixelData survives the header mapper |
| `Converter.PrototypeKept` | src/main/java/pt/ua/dicoogle/nifti/convert/NIFTIConverterImpl.java:94-108 | outside the attributes convertSlice writes, the converted slice agrees with the prototype: each other prototype attribute is kept and no other attribute appears |
| `Converter.InstanceDrawsOrdered` | src/main/java/pt/ua/dicoogle/nifti/convert/NIFTIConverterImpl.java:77-82 | the random terms of the instances are drawn in d-major, z-minor order and never overlap |
| `Converter.NIFTIConverter.WithPrototype` | src/main/java/pt/ua/dicoogle/nifti/convert/NIFTIConverterImpl.java:47-50 | the converter keeps a copy of the given prototype and has drawn no digits |
| `Converter.NIFTIConverter.constructor` | src/main/java/pt/ua/dicoogle/nifti/convert/NIFTIConverterImpl.java:52-56 | the default prototype is the Explicit VR Little Endian transfer syntax alone |
| `Converter.NIFTIConverter.GenerateUidTerm` | src/main/java/pt/ua/dicoogle/nifti/convert/NIFTIConverterImpl.java:108-114 | generateUidTerm returns the next `size` digits of the random source and advances the source by `size` |
| `Converter.NIFTIConverter.ConvertSliceWithUid` | src/main/java/pt/ua/dicoogle/nifti/convert/NIFTIConverterImpl.java:94-106 | the six-argument convertSlice returns a fresh object holding SliceSpec's record, or its error |
| `Converter.NIFTIConverter.ConvertSlice` | src/main/java/pt/ua/dicoogle/nifti/convert/NIFTIConverterImpl.java:89-92 | the five-argument convertSlice draws one 8-digit term for the instance UID series + "." + term and converts with it |
| `Converter.NIFTIConverter.Slices` | src/main/java/pt/ua/dicoogle/nifti/convert/NIFTIConverterImpl.java:80-82 | one channel yields one record per z |
| `Converter.NIFTIConverter.SlicesSnoc` | src/main/java/pt/ua/dicoogle/nifti/convert/NIFTIConverterImpl.java:80-82 | the records of a channel come in z order: n + 1 slices are n slices followed by slice n |
| `Converter.NIFTIConverter.ConversionRecords` | src/main/java/pt/ua/dicoogle/nifti/convert/NIFTIConverterImpl.java:78-83 | a successful conversion has exactly dimension * sizeZ records, the record at d * sizeZ + z being slice z of channel d with the volume's window |
| `Converter.NIFTIConverter.ConvertedAttributes` | src/main/java/pt/ua/dicoogle/nifti/convert/NIFTIConverterImpl.java:77-103 | record (d, z) holds the study UID, the series UID of d, its own instance UID, FrameOfReferenceUID instance + ".0", InstanceNumber z + 1, its PixelData and the shared window |
| `Converter.NIFTIConverter.ConvertedKeepsPrototype` | src/main/java/pt/ua/dicoogle/nifti/convert/NIFTIConverterImpl.java:94-108 | outside the attributes convertSlice and the window write, every record agrees with the prototype: each other prototype attribute is kept and no other attribute appears |
| `Converter.NIFTIConverter.DefaultConvertedTags` | src/test/java/pt/ua/dicoogle/nifti/convert/NIFTIConverterTest.java:75-76 | with the default prototype every record holds only the transfer syntax and attributes convertSlice or the window write; in particular it has no Modality |
| `Converter.NIFTIConverter.DefaultTransferSyntax` | src/main/java/pt/ua/dicoogle/nifti/convert/NIFTIConverterImpl.java:52-56 | with the default prototype every record keeps the Explicit VR Little Endian transfer syntax |
| `Converter.NIFTIConverter.UidHierarchy` | src/main/java/pt/ua/dicoogle/nifti/convert/NIFTIConverterImpl.java:77-90 | study = root + "." + 8 digits, series = study + "." + 8 digits, instance = series + "." + 8 digits |
| `Converter.NIFTIConverter.ConvertAndWindow` | src/main/java/pt/ua/dicoogle/nifti/convert/NIFTIConverterImpl.java:82-83 | one slice converted and windowed draws one term and yields record (d, z), or UnsupportedDatatype |
| `Converter.NIFTIConverter.ConvertChannel` | src/main/java/pt/ua/dicoogle/nifti/convert/NIFTIConverterImpl.java:80-83 | the z loop of one channel yields the channel's records in z order, or UnsupportedDatatype when there is a slice to convert |
| `Converter.NIFTIConverter.Convert` | src/main/java/pt/ua/dicoogle/nifti/convert/NIFTIConverterImpl.java:70-87 | convert yields exactly Conversion: the window error before any draw, otherwise every record or the first slice's error |
| `ConvertServlet.ConvertBodyPartId` | src/main/java/pt/ua/dicoogle/nifti/ws/NIFTIConvertWebServlet.java:274-288 | a body part is found exactly for "Ab", "Th", "ThAb" and "Wb"; everything else, "undefined" included, gives none |
| `ConvertServlet.BodyPartTable` | src/main/java/pt/ua/dicoogle/nifti/ws/NIFTIConvertWebServlet.java:274-288 | the mapping is one-to-one: each found body part maps back to its code and each code of the table maps forward to its body part |
| `ConvertServlet.IsGzipMeaning` | src/main/java/pt/ua/dicoogle/nifti/ws/NIFTIConvertWebServlet.java:264-266 | isGzip is false without a content type, throws ArrayIndexOutOfBounds exactly for a non-empty string of ';' alone, and otherwise is true exactly when the trimmed segment before the first ';' ends with "gzip" |
| `ConvertServlet.StripNiiGz` | src/main/java/pt/ua/dicoogle/nifti/ws/NIFTIConvertWebServlet.java:229-231 | a trailing ".nii.gz" is removed, and a name without it is kept |
| `ConvertServlet.StripNiiGzAdded` | src/main/java/pt/ua/dicoogle/nifti/ws/NIFTIConvertWebServlet.java:229-231 | stripping a name with ".nii.gz" appended gives back the name |
| `ConvertServlet.SeriesInfoAsWrittenThrows` | src/main/java/pt/ua/dicoogle/nifti/ws/NIFTIConvertWebServlet.java:234-241 | injectSeriesInfo as written throws exactly when the stripped name has no '_' |
| `ConvertServlet.SeriesInfoAsWrittenExample` | src/main/java/pt/ua/dicoogle/nifti/ws/NIFTIConvertWebServlet.java:234-241 | "scan.nii.gz", and a form field named "file", make `substring(0, -1)` throw |
| `ConvertServlet.SeriesInfoAsWrittenSkips` | src/main/java/pt/ua/dicoogle/nifti/ws/NIFTIConvertWebServlet.java:234-241 | "a_b.nii.gz", with '_' at index 1, gets no AccessionNumber |
| `ConvertServlet.AccessionOf` | src/main/java/pt/ua/dicoogle/nifti/ws/NIFTIConvertWebServlet.java:234-240 | the accession number is the '_'-free prefix before the first '_', cut at 16 characters |
| `ConvertServlet.SeriesInfoMeaning` | src/main/java/pt/ua/dicoogle/nifti/ws/NIFTIConvertWebServlet.java:227-243 | SeriesDescription is the stripped name; with a '_' AccessionNumber (SH) is its prefix before the first '_', at most 16 characters; nothing else changes |
| `ConvertServlet.SeriesInfoAgrees` | src/main/java/pt/ua/dicoogle/nifti/ws/NIFTIConvertWebServlet.java:234-241 | wherever the code as written neither throws nor skips, it agrees with the corrected injectSeriesInfo |
| `ConvertServlet.InjectSeriesInfo` | src/main/java/pt/ua/dicoogle/nifti/ws/NIFTIConvertWebServlet.java:227-243 | injectSeriesInfo on the object leaves SeriesInfo of its old elements and returns the same object |
| `ConvertServlet.BodyPartFromFileName` | src/main/java/pt/ua/dicoogle/nifti/ws/NIFTIConvertWebServlet.java:245-262 | for patient_series_code.nii.gz BodyPartExamined is the mapped code, or empty when the code is not mapped, and nothing else changes |
| `ConvertServlet.BodyPartNeedsThreeFields` | src/main/java/pt/ua/dicoogle/nifti/ws/NIFTIConvertWebServlet.java:251-253 | with fewer than three '_'-separated parts the record is unchanged |
| `ConvertServlet.InjectBodyPart` | src/main/java/pt/ua/dicoogle/nifti/ws/NIFTIConvertWebServlet.java:245-262 | injectBodyPart on the object leaves BodyPartInfo of its old elements and returns the same object |
| `ConvertServlet.ComposeInjector` | src/main/java/pt/ua/dicoogle/nifti/ws/NIFTIConvertWebServlet.java:175-180 | the builder calls yield the chain patient, clinic, body part, modality |
| `ConvertServlet.BuildRequestInjector` | src/main/java/pt/ua/dicoogle/nifti/ws/NIFTIConvertWebServlet.java:152-180 | the defaulted parameters and the mapped body part reach the chain, with the modality upper-cased |
| `ConvertServlet.RequestWithoutModality` | src/main/java/pt/ua/dicoogle/nifti/ws/NIFTIConvertWebServlet.java:152-180 | without a modality the records get CT and the CT SOP class; a missing patient name becomes "Patient^Anonymous" and a missing manufacturer "UNKNOWN"; a known body part code is mapped |
| `ConvertServlet.UpperCaseMR` | src/main/java/pt/ua/dicoogle/nifti/ws/NIFTIConvertWebServlet.java:179 | upper-casing yields "MR" exactly for "mr", "mR", "Mr" and "MR" |
| `ConvertServlet.LowerCaseModality` | src/main/java/pt/ua/dicoogle/nifti/ws/NIFTIConvertWebServlet.java:179 | any spelling of "mr" ("mr", "mR", "Mr", "MR") is upper-cased and selects the MR injector, with the anonymous patient name as default |

## Left out

- HTTP handling in `doPost` is outside the model: multipart parsing, JSON replies, the `ForkJoinPool` submission and `storage.store`. Only the pure helpers and the parameter defaulting are modelled.
- The plugin classes (plugin set, servlet plugin, settings singleton) are not part of this model. The UID root is a plain parameter of `Convert`.
- NIfTI-1 file reading and the DICOM object library internals are foreign code. The volume is a read-only voxel function and the record is a map from tag to element.
- `java.util.Random` is replaced by a digit source `nat -> Digit` plus a draw counter. UID uniqueness is not promised by the code and is not proved.
- The random UUID given to a missing patient ID is the parameter `randomId`.
- IEEE-754 rounding is not modelled. Doubles and floats are reals, and the `(float)v + 1024` narrowing is treated like `v + 1024`. The casts are written out as Java defines them.
- PixelData.Normalized: states the normalised value only for a non-zero slope. A zero slope gives an infinity or NaN, which `Sample` maps the way the casts do.
- JavaNum.UnsignedShiftRight8: states only the range of the result, since the source uses it solely as the high byte of a short.
- Converter.NIFTIConverter.Convert: computes the records eagerly instead of as a lazy stream. The first slice that cannot be packed turns the whole result into its error, which the stream would raise only when that element is consumed.
- `writeInt` and `writeLong` are never called and are not modelled.
- JavaStrings.ToUpperCase: upper-cases ASCII letters only. Java's locale-dependent case mapping of other characters is not modelled.
- InjectorBuilder.GeneralClinicDicomInjector.Inject: its source is not part of this model. It sets Manufacturer and InstitutionName as the builder tests expect.
- InjectorBuilder.BodyPartDicomInjector.Inject: its source is not part of this model. It sets BodyPartExamined when a body part is given, as the builder tests expect. For a null body part (an unmapped or missing code) it is assumed to put nothing; this is not read from the code, and an unguarded `putString(..., null)` would instead store an empty BodyPartExamined.
- MRClassInjector.MRSingle: the constructor's copy of the caller's lists is not modelled. Lists are values in the model, so later changes by the caller cannot reach the injector.
- ConvertServlet.InjectSeriesInfo: implements the corrected guard (see Findings). The code as written is `ConvertServlet.SeriesInfoAsWritten`.
- A `RuntimeIOException` is modelled as an error value (`ConvertError`) instead of an exception.

## Findings

| source | as written | input that shows it | evidently intended | confidence | as-written member | corrected member |
|---|---|---|---|---|---|---|
| src/main/java/pt/ua/dicoogle/nifti/ws/NIFTIConvertWebServlet.java:234-241 | `if (n != 1)` before `substring(0, n)`: a name without '_' gives `n == -1` and `substring(0, -1)` throws; the name is the multipart field's name, so a field named "file" fails every upload | "scan.nii.gz", or a form field named "file" | `n != -1`: no AccessionNumber when there is no '_' | not executed | `ConvertServlet.SeriesInfoAsWrittenExample` | `ConvertServlet.SeriesInfoMeaning` |
| src/main/java/pt/ua/dicoogle/nifti/ws/NIFTIConvertWebServlet.java:234-241 | `if (n != 1)`: a name whose first '_' is at index 1 gets no AccessionNumber | "a_b.nii.gz" | `n != -1`: AccessionNumber "a" | not executed | `ConvertServlet.SeriesInfoAsWrittenSkips` | `ConvertServlet.SeriesInfoMeaning` |
