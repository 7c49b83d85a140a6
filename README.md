# Rogue Spear level and texture decoders

This project models the two binary readers at the heart of the Rogue Spear
engine re-implementation:

* the **MAP** level decoder. A MAP file starts with the length-prefixed
  magic string `BeginMapv2.1` and a timestamp. Then come eight sections in
  a fixed order: materials, geometries, portals, lights, dynamic objects,
  rooms, transitions and planning levels. The file ends with the string
  `EndMap`. Each section opens with a header: a size (skipped), an id and
  a name. A name equal to `Version` is followed by a version word and the
  real name. Strings are ISO-8859-1 and are widened to Unicode character
  by character. A few strings must be valid UTF-8.
* the **RSB** texture decoder. An RSB file holds a version (0 or 1), the
  width and the height. A version 0 file then has a palette word: 0 means
  a bit mask follows, 1 means a 1024-byte colour table follows. A version 1
  file has the bit mask directly. Then come width × height pixels: one
  byte each (a palette index) in a palettized file, and a 16-bit word each
  otherwise. A word is tagged ARGB when the mask is 32 bits deep and BGRA
  otherwise. A palettized file ends with a second bit mask and
  width × height 16-bit masked pixels. The channel accessors cut a pixel
  into its red, green, blue and alpha fields.

Every byte reader exists twice:

* a pure function of the buffer and a start offset (`U32At`,
  `ParseMaterial`, `DecodeRsb`, ...), which says what the bytes mean;
* an imperative method that advances a `Cursor`'s position the way the
  source does and fills its lists by pushing in loops (`Cursor.ReadU32`,
  `ReadMaterial`, `ReadRsb`, ...).

Each method is proved to agree with its function through `Matches`: on
success it returns the function's value and leaves the cursor at the
function's end offset, and on failure it returns the same error. The
properties of the file formats are then proved as lemmas about the
functions.

Modules:

| file | module | contents |
|---|---|---|
| bytes.dfy | `Bytes` | integers, `Result`, the scalar and string readers, `ParseCount`, `Cursor` |
| byte_facts.dfy | `ByteFacts` | little-endian round trips, string layout, Latin-1, UTF-8 |
| map_types.dfy | `MapTypes` | the records of a MAP level |
| map_grammar.dfy | `MapGrammar` | the MAP layout as functions |
| map_reader.dfy | `MapReader` | the MAP reader as cursor methods |
| map_facts.dfy | `MapFacts` | properties of the MAP layout |
| pixels.dfy | `Pixels` | bit masks, pixels and their channel accessors |
| pixel_facts.dfy | `PixelFacts` | the 5-6-5 mask and sample texels |
| rsb.dfy | `RsbFormat` | the RSB layout as functions |
| rsb_reader.dfy | `RsbReader` | the RSB reader as cursor methods |
| rsb_facts.dfy | `RsbFacts` | properties of a decoded RSB texture |
| rsb_truncation.dfy | `RsbTruncation` | a cut RSB file fails, an extended one decodes the same |

## Model

| member | source | states |
|---|---|---|
| Bytes.Cursor.constructor | src/map.rs:63-70 | a cursor starts at offset 0 of the loaded bytes |
| Bytes.Cursor.ReadExact | src/rsb.rs:58-59 | `read_exact` takes exactly k bytes or fails at end of input, matching `ExactAt` |
| Bytes.Cursor.ReadU8 | src/map.rs:1263-1265 | one byte, matching `U8At` |
| Bytes.Cursor.ReadU16 | src/rsb.rs:64 | a little-endian u16, matching `U16At` |
| Bytes.Cursor.ReadU32 | src/rsb.rs:18 | a little-endian u32, matching `U32At` |
| Bytes.Cursor.ReadF32 | src/map.rs:1559-1563 | a little-endian f32 kept as its bit pattern, matching `F32At` |
| Bytes.Cursor.ReadBool | src/map.rs:1555-1557 | one byte, true exactly when it is 1, matching `BoolAt` |
| Bytes.Cursor.ReadCString | src/map.rs:1543-1553 | a u32 length, then that many bytes minus the terminator; length 0 is an error; matching `CStringAt` |
| Bytes.Cursor.ReadF32Xy | src/map.rs:1559-1563 | two f32, matching `F32XyAt` |
| Bytes.Cursor.ReadF32Xyz | src/map.rs:1565-1569 | three f32, matching `F32XyzAt` |
| Bytes.Cursor.ReadLatin1 | src/map.rs:1575-1577 | a string read and widened from Latin-1, matching `Latin1At` |
| Bytes.ReadF32Array | src/map.rs:864-866 | a fixed-size f32 array filled in a loop, matching `ParseCount(F32At, ...)` |
| Bytes.ReadU32Array | src/map.rs:873-875 | a fixed-size u32 array filled in a loop, matching `ParseCount(U32At, ...)` |
| Bytes.ReadF32List | src/map.rs:1353-1360 | n f32 pushed in a loop, matching `ParseCount(F32At, ...)` |
| Bytes.ReadU16List | src/map.rs:534-536 | n u16 pushed in a loop, matching `ParseCount(U16At, ...)` |
| Bytes.ReadLatin1List | src/map.rs:911-916 | n Latin-1 strings read in a loop, matching `ParseCount(Latin1At, ...)` |
| Bytes.Latin1ToUtf8 | src/map.rs:1575-1577 | the text has one character per byte, each with the byte's code point |
| Bytes.Utf8SequenceLength | src/map.rs:539 | the length of the next UTF-8 sequence is at most 4 and fits in the input |
| Bytes.CountFailure | src/map.rs:256-260 | a loop of reads that fails after m reads fails with the same error for any n ≥ m |
| Bytes.CountLength | src/map.rs:256-260 | n successful reads give exactly n elements |
| Bytes.CountFixed | src/rsb.rs:55-73 | n reads of a fixed-width element end k·n bytes later, and element i is read at offset pos + k·i |
| Bytes.F32sConsume | src/map.rs:864-866 | k f32 reads succeed iff 4k bytes remain; they then end 4k bytes later, and otherwise fail at end of input |
| ByteFacts.U16Decode | src/rsb.rs:64 | the little-endian bytes of v decode to v, two bytes later |
| ByteFacts.U16Encode | src/rsb.rs:64 | a decoded u16 re-encodes to the bytes it came from |
| ByteFacts.U32Decode | src/rsb.rs:18 | the little-endian bytes of v decode to v, four bytes later |
| ByteFacts.U32Encode | src/rsb.rs:18 | a decoded u32 re-encodes to the bytes it came from |
| ByteFacts.CStringBytes | src/map.rs:1543-1553 | the encoding of a string is its length word, its bytes and one terminator |
| ByteFacts.CStringDecode | src/map.rs:1543-1553 | encoding a string then decoding it gives the string back, after the terminator |
| ByteFacts.CStringShape | src/map.rs:1543-1553 | length 0 is `EmptyString`; a length past the end is end of input; otherwise the result is the first len-1 bytes after the length word |
| ByteFacts.CStringEncode | src/map.rs:1543-1553 | a decoded string re-encodes to the bytes it came from |
| ByteFacts.BoolTotal | src/map.rs:1555-1557 | a bool read succeeds iff a byte remains, and gives `byte == 1`; any other byte is false |
| ByteFacts.Latin1Injective | src/map.rs:1575-1577 | Latin-1 widening loses nothing: equal texts come from equal bytes |
| ByteFacts.AsciiIsUtf8 | src/map.rs:539 | ASCII bytes always pass the UTF-8 check |
| ByteFacts.Utf8Rejects | src/map.rs:1161 | a bare continuation byte, an overlong form and a surrogate are rejected; `é` in UTF-8 is accepted |
| MapGrammar.AsciiBytes | src/map.rs:8-9 | the magic and end markers are the bytes of their ASCII text |
| MapGrammar.AddressModeFromCode | src/map.rs:178-187 | codes 0, 1 and 3 map to a mode whose code they are; any other code is `UnknownTextureAddressMode` |
| MapGrammar.IdTryFrom | src/map.rs:685-698 | exactly ids 14, 15, 16, 20, 25, 31 and 36 name a kind, whose value is the id; others are `UnknownId` |
| MapGrammar.ParseDynamicKind | src/map.rs:1045-1052 | a successful read is a `Dynamic` kind |
| MapGrammar.ParseAnimationKind | src/map.rs:1055-1100 | a successful read is an `Animation` kind |
| MapGrammar.ParseRepeatableTouchplateKind | src/map.rs:1105-1156 | a successful read is a `RepeatableTouchplate` kind |
| MapGrammar.ParseGlassKind | src/map.rs:1159-1162 | a successful read is a `Glass` kind |
| MapGrammar.ParseOneTimeTouchplateKind | src/map.rs:1165-1190 | a successful read is a `OneTimeTouchplate` kind |
| MapGrammar.ParseHaloKind | src/map.rs:1193-1205 | a successful read is a `Halo` kind |
| MapReader.ReadSectionHeaderShort | src/map.rs:1515-1529 | reads what `ParseSectionHeaderShort` specifies, including the `Version` detour, and leaves the cursor after it, or fails with the same error |
| MapReader.ReadSectionHeader | src/map.rs:1508-1512 | the same for `ParseSectionHeader` |
| MapReader.ReadVertex | src/map.rs:307-310 | the same for `ParseVertex` |
| MapReader.ReadVec3f | src/map.rs:749-752 | the same for `ParseVec3f` |
| MapReader.ReadVec6f | src/map.rs:766-770 | the same for `ParseVec6f` |
| MapReader.ReadVec8f | src/map.rs:788-793 | the same for `ParseVec8f` |
| MapReader.ReadNormalCoord | src/map.rs:445-448 | the same for `ParseNormalCoord` |
| MapReader.ReadUvCoord | src/map.rs:458-462 | the same for `ParseUvCoord` |
| MapReader.ReadColor4f | src/map.rs:200-206 | the same for `ParseColor4f` |
| MapReader.ReadFaceNormal | src/map.rs:392-396 | the same for `ParseFaceNormal` |
| MapReader.ReadIndexTriple | src/map.rs:354-359 | the same for `ParseIndexTriple` |
| MapReader.ReadTransformationMatrix | src/map.rs:731-738 | the same for `ParseTransformationMatrix` |
| MapReader.ReadMapHeader | src/map.rs:79-89 | the same for `ParseMapHeader`, which rejects a wrong magic |
| MapReader.ReadTextureAddressMode | src/map.rs:178-187 | the same for `ParseTextureAddressMode` |
| MapReader.ReadMaterial | src/map.rs:136-167 | the same for `ParseMaterial` |
| MapReader.ReadMaterials | src/map.rs:100-116 | the same for `ParseMaterials` |
| MapReader.ReadFaces | src/map.rs:342-379 | the same for `ParseFaces` |
| MapReader.ReadTextureVertices | src/map.rs:408-434 | the same for `ParseTextureVertices` |
| MapReader.ReadObjectData | src/map.rs:322-331 | the same for `ParseObjectData` |
| MapReader.ReadVertexList | src/map.rs:256-260 | n vertices pushed in a loop, matching `ParseCount(ParseVertex, ...)` |
| MapReader.ReadCollisions | src/map.rs:472-488 | the same for `ParseCollisions` |
| MapReader.ReadTag | src/map.rs:500-517 | the same for `ParseTag` |
| MapReader.ReadEIndices | src/map.rs:529-543 | the same for `ParseEIndices`, which requires the text to be UTF-8 |
| MapReader.ReadObject | src/map.rs:248-296 | the same for `ParseObject` |
| MapReader.ReadGeometries | src/map.rs:216-230 | the same for `ParseGeometries` |
| MapReader.ReadPortal | src/map.rs:580-597 | the same for `ParsePortal` |
| MapReader.ReadPortals | src/map.rs:554-567 | the same for `ParsePortals` |
| MapReader.ReadLights | src/map.rs:611-615 | the same for `ParseLights` |
| MapReader.ReadKindDynamicParamStruct | src/map.rs:860-883 | the same for `ParseKindDynamicParamStruct` |
| MapReader.ReadKindDynamicParamStructs | src/map.rs:818-820 | n structs pushed in a loop, matching `ParseCount(ParseKindDynamicParamStruct, ...)` |
| MapReader.ReadKindDynamicParams | src/map.rs:814-848 | the same for `ParseKindDynamicParams`: structs when the count is non-zero, the flat form otherwise |
| MapReader.ReadDynamicObjectKindCommon | src/map.rs:904-945 | the same for `ParseDynamicObjectKindCommon` |
| MapReader.ReadDynamicKind | src/map.rs:1045-1052 | the same for `ParseDynamicKind` |
| MapReader.ReadAnimationKind | src/map.rs:1055-1100 | the same for `ParseAnimationKind` |
| MapReader.ReadRepeatableTouchplateKind | src/map.rs:1105-1156 | the same for `ParseRepeatableTouchplateKind` |
| MapReader.ReadGlassKind | src/map.rs:1159-1162 | the same for `ParseGlassKind`, which requires the name to be UTF-8 |
| MapReader.ReadOneTimeTouchplateKind | src/map.rs:1165-1190 | the same for `ParseOneTimeTouchplateKind` |
| MapReader.ReadHaloEntry | src/map.rs:1196-1203 | the same for `ParseHaloEntry` |
| MapReader.ReadHaloKind | src/map.rs:1193-1205 | the same for `ParseHaloKind` |
| MapReader.ReadStaticEffectKind | src/map.rs:1208-1211 | the same for `ParseStaticEffectKind` |
| MapReader.ReadDynamicObjectKind | src/map.rs:1031-1042 | the same for `ParseDynamicObjectKind`, dispatching on the id |
| MapReader.ReadDynamicObject | src/map.rs:702-719 | the same for `ParseDynamicObject` |
| MapReader.ReadDynamicObjects | src/map.rs:626-636 | the same for `ParseDynamicObjects` |
| MapReader.ReadTransformationWithAabb | src/map.rs:1375-1384 | the same for `ParseTransformationWithAabb` |
| MapReader.ReadShermanLevel | src/map.rs:1341-1365 | the same for `ParseShermanLevel` |
| MapReader.ReadLevelHeight | src/map.rs:1397-1401 | the same for `ParseLevelHeight` |
| MapReader.ReadRoomOptionals | src/map.rs:1267-1295 | the same for `ParseRoomOptionals` |
| MapReader.ReadRoom | src/map.rs:1259-1327 | the same for `ParseRoom` |
| MapReader.ReadRooms | src/map.rs:1222-1233 | the same for `ParseRooms` |
| MapReader.ReadTransitionCoords | src/map.rs:1449-1453 | the same for `ParseTransitionCoords` |
| MapReader.ReadTransition | src/map.rs:1435-1439 | the same for `ParseTransition` |
| MapReader.ReadTransitions | src/map.rs:1412-1425 | the same for `ParseTransitions` |
| MapReader.ReadPlanningLevel | src/map.rs:1486-1502 | the same for `ParsePlanningLevel` |
| MapReader.ReadPlanningLevels | src/map.rs:1464-1475 | the same for `ParsePlanningLevels` |
| MapReader.ReadMapSections | src/map.rs:32-58 | the same for `ParseMap`: header, eight sections, end marker |
| MapReader.ReadMap | src/map.rs:63-70 | decoding the loaded bytes gives exactly `DecodeMap` |
| MapFacts.SectionHeaderSkipsSize | src/map.rs:1508-1512 | a full header is a discarded size word followed by a short header; without 4 bytes it is end of input |
| MapFacts.VersionQuirk | src/map.rs:1515-1529 | the id is the first word; a first name other than `Version` is the name; after `Version` a word is skipped and the second string is the name |
| MapFacts.HeaderShortBytes | src/map.rs:1515-1529 | an encoded short header is an id word and one string |
| MapFacts.HeaderShortDecode | src/map.rs:1515-1529 | encoding an id and a name and decoding gives them back, with the name widened |
| MapFacts.VersionedHeaderDecode | src/map.rs:1522-1526 | `Version`, a version word and a name decode to that name, 24 bytes plus the name later |
| MapFacts.MagicRequired | src/map.rs:80-84 | a decoded level starts with the magic string |
| MapFacts.MagicMismatchRejected | src/map.rs:80-84 | any other first string is rejected with `MagicMismatch` |
| MapFacts.DecodedMapIsSectionChain | src/map.rs:32-58 | a decoded level is a chain of the header, the eight sections in order and the end marker |
| MapFacts.SectionChainDecodes | src/map.rs:32-58 | conversely such a chain decodes to that level |
| MapFacts.DecodeMapIsSectionChain | src/map.rs:32-58 | decoding succeeds with m iff the bytes form a section chain for m |
| MapFacts.MissingEndRejected | src/map.rs:45 | after the planning levels, any string other than `EndMap` fails with `MissingEnd` |
| MapFacts.EmptySectionBytes | src/map.rs:100-116 | an empty section is a size word, a short header and a zero count |
| MapFacts.EmptySectionParts | src/map.rs:1508-1512 | an encoded empty section decodes to its header and a zero count |
| MapFacts.EmptySectionDecode | src/map.rs:100-116 | a header and a zero count decode as an empty section of every list kind, ending after the count |
| MapFacts.EmptyMapHeader | src/map.rs:79-89 | a file that starts with the magic string and timestamp 7 decodes its header to timestamp 7, 21 bytes in |
| MapFacts.EmptyMapFirstHalf | src/map.rs:32-37 | in a level of eight empty sections, materials, geometries, portals and lights decode as empty lists, 18 bytes each |
| MapFacts.EmptyMapSecondHalf | src/map.rs:38-45 | dynamic objects, rooms, transitions and planning levels decode as empty lists, and `EndMap` follows at offset 165 |
| MapFacts.EmptyMapDecodes | src/map.rs:32-58 | the magic string, timestamp 7, eight empty sections and `EndMap` decode to a level with that timestamp, all eight lists empty and no lights |
| MapFacts.IdRoundTrip | src/map.rs:685-698 | every kind id converts back from its value |
| MapFacts.KindMatchesId | src/map.rs:1031-1042 | the kind read for an id is the variant that id names |
| MapFacts.DynamicObjectKindMatchesSection | src/map.rs:702-719 | a dynamic object's kind is the one its section id names |
| MapFacts.UnknownIdRejected | src/map.rs:702-719 | a dynamic object whose section id names no kind fails with `UnknownId` of that id |
| MapFacts.StaticEffectConsumesNothing | src/map.rs:1208-1211 | a static effect reads no bytes |
| MapFacts.ShadowCount | src/map.rs:814-848 | the params are structs iff the count is non-zero, then that many; otherwise a name per second count and 4 unknown floats |
| MapFacts.ParamStructShape | src/map.rs:860-883 | a param struct holds 9 floats and 2 words |
| MapFacts.RoomOptionalChain | src/map.rs:1267-1295 | unknown4 exists iff unknown1 is 0; unknown5 iff unknown3 is 1; unknown6 iff unknown4 is 1; each array holds 6 floats, and the bytes consumed add up |
| MapFacts.RoomLayout | src/map.rs:1259-1327 | three bytes after the header, then the optionals, then as many Sherman levels and level heights as their counts say |
| MapFacts.MaterialsCount | src/map.rs:100-116 | the list holds as many materials as the section's count |
| MapFacts.GeometriesCount | src/map.rs:216-230 | the list holds as many objects as the section's count |
| MapFacts.PortalsCount | src/map.rs:554-567 | the list holds as many portals as the section's count |
| MapFacts.DynamicObjectsCount | src/map.rs:626-636 | the list holds as many dynamic objects as the section's count |
| MapFacts.RoomsCount | src/map.rs:1222-1233 | the list holds as many rooms as the section's count |
| MapFacts.TransitionsCount | src/map.rs:1412-1425 | the list holds as many transitions as the section's count |
| MapFacts.PlanningLevelsCount | src/map.rs:1464-1475 | the list holds as many planning levels as the section's count |
| MapFacts.FacesParallel | src/map.rs:342-379 | normals, face indices and texture indices all have the face count's length |
| MapFacts.TextureVerticesParallel | src/map.rs:408-434 | normals, uv coordinates and face colours all have the count's length |
| MapFacts.AddressModeRoundTrip | src/map.rs:178-187 | every address mode converts back from its code |
| Pixels.MaskThenShift32 | src/rsb.rs:267-274 | masking in place then shifting down gives the same field as shifting then masking |
| Pixels.FieldBound32 | src/rsb.rs:267-274 | a w-bit field is below 2^w |
| Pixels.Masked32 | src/rsb.rs:267-274 | `masked` is None iff the width is 0, and otherwise the width-bit field of the word at the shift |
| Pixels.MaskedBound32 | src/rsb.rs:267-274 | a channel from a 32-bit word is below 2^width |
| Pixels.MaskThenShift16 | src/rsb.rs:303-310 | the 16-bit form of `MaskThenShift32` |
| Pixels.FieldBound16 | src/rsb.rs:303-310 | the 16-bit form of `FieldBound32` |
| Pixels.Masked16 | src/rsb.rs:303-310 | the 16-bit `masked`: None iff the width is 0, otherwise the field |
| Pixels.MaskedBound16 | src/rsb.rs:303-310 | a channel from a 16-bit word is below 2^width |
| Pixels.Pixel.R | src/rsb.rs:218-228 | red is None iff its width is 0, and otherwise below 2^r |
| Pixels.Pixel.G | src/rsb.rs:230-240 | green is None iff its width is 0, and otherwise below 2^g |
| Pixels.Pixel.B | src/rsb.rs:242-252 | blue is None iff its width is 0, and otherwise below 2^b |
| Pixels.Pixel.A | src/rsb.rs:254-264 | alpha is None iff its width is 0, and otherwise below 2^a |
| Pixels.MaskedPixel.R | src/rsb.rs:287-289 | red is None iff its width is 0, and otherwise below 2^r |
| Pixels.MaskedPixel.G | src/rsb.rs:291-293 | green is None iff its width is 0, and otherwise below 2^g |
| Pixels.MaskedPixel.B | src/rsb.rs:295-297 | blue is None iff its width is 0, and otherwise below 2^b |
| Pixels.MaskedPixel.A | src/rsb.rs:299-301 | alpha is None iff its width is 0, and otherwise below 2^a |
| PixelFacts.Mask565Depth | src/rsb.rs:177-185 | the 5-6-5-0 mask is 16 bits deep, so its pixels are BGRA |
| PixelFacts.MaskedPixel565 | src/rsb.rs:303-310 | under 5-6-5 a masked pixel's channels put back in place give the word, and there is no alpha |
| PixelFacts.Bgra565 | src/rsb.rs:267-274 | under 5-6-5 a 16-bit BGRA pixel's channels put back in place give the word, and there is no alpha |
| PixelFacts.MaskedPixelSample0 | src/rsb.rs:346-374 | sample word 0x2946 has red 6, green 10, blue 5 and no alpha |
| PixelFacts.MaskedPixelSample1 | src/rsb.rs:346-374 | sample word 0x2966 has red 6, green 11, blue 5 and no alpha |
| PixelFacts.MaskedPixelSample2 | src/rsb.rs:346-374 | sample word 0x2145 has red 5, green 10, blue 4 and no alpha |
| PixelFacts.MaskedPixelSample3 | src/rsb.rs:346-374 | sample word 0x2125 has red 5, green 9, blue 4 and no alpha |
| PixelFacts.MaskedPixelSample4 | src/rsb.rs:346-374 | sample word 0x2105 has red 5, green 8, blue 4 and no alpha |
| PixelFacts.BgraSample0 | src/rsb.rs:406-428 | sample word 0x4208 has blue 8, green 16, red 8 and no alpha |
| PixelFacts.BgraSample1 | src/rsb.rs:406-428 | sample word 0x1062 has blue 2, green 3, red 2 and no alpha |
| PixelFacts.BgraSample2 | src/rsb.rs:406-428 | sample word 0x10a3 has blue 3, green 5, red 2 and no alpha |
| PixelFacts.BgraSample3 | src/rsb.rs:406-428 | sample word 0x2104 has blue 4, green 8, red 4 and no alpha |
| RsbReader.ReadBitMask | src/rsb.rs:166-173 | reads what `ParseBitMask` specifies and leaves the cursor after it, or fails with the same error |
| RsbReader.ReadPaletteColors | src/rsb.rs:35-41 | the colours pushed are exactly the 4-byte windows of the table |
| RsbReader.ReadPixel | src/rsb.rs:56-71 | the same for `ParsePixel` |
| RsbReader.ReadPixels | src/rsb.rs:53-73 | size pixels pushed in a loop, matching `ParseCount(PixelParser(...), ...)` |
| RsbReader.ReadMaskedPixels | src/rsb.rs:78-83 | size masked pixels pushed in a loop, matching `ParseCount(MaskedPixelAt, ...)` |
| RsbReader.ReadRsb | src/rsb.rs:18-87 | updating the default texture field by field gives exactly `DecodeRsb` |
| RsbFacts.BitMaskWords | src/rsb.rs:166-173 | a bit mask is read iff 16 bytes remain; it is the four words r, g, b, a in order, and otherwise end of input |
| RsbFacts.PaletteWindows | src/rsb.rs:32-41 | the 1024-byte table gives 1021 colours, colour i being bytes i to i+3 as b, g, r, a |
| RsbFacts.PaletteOverlap | src/rsb.rs:35-41 | consecutive colours overlap in three bytes |
| RsbFacts.SectionShape | src/rsb.rs:26-51 | a palette word exactly in version 0, always 0 or 1; a table exactly for palette 1 (then the mask is still the default); otherwise the mask is the 16 bytes read |
| RsbFacts.PixelWidth | src/rsb.rs:56-71 | a pixel takes 1 byte in a palettized file and 2 otherwise |
| RsbFacts.MaskedPixelWidth | src/rsb.rs:80-81 | a masked pixel takes 2 bytes |
| RsbFacts.WidenBound | src/rsb.rs:64 | a widened 16-bit word is below 2^16 |
| RsbFacts.WordTagged | src/rsb.rs:64-70 | a word becomes ARGB exactly when the mask is 32 bits deep, and BGRA otherwise |
| RsbFacts.PixelsTaggedAt | src/rsb.rs:55-73 | every pixel read carries the tag the file's palette and mask give |
| RsbFacts.DecodeSteps | src/rsb.rs:18-87 | a decoded texture is a header, a palette section, the image and the tail, each at its offset |
| RsbFacts.HeaderDecoded | src/rsb.rs:18-25 | the version is below 2 and it, the width and the height are the first three words |
| RsbFacts.PaletteFields | src/rsb.rs:26-51 | the palette word exists iff version 0 and is 0 or 1; the table exists iff palette 1 and holds the 1021 windows of bytes 16 to 1039 |
| RsbFacts.UniformPixels | src/rsb.rs:53-73 | there are width·height pixels, all tagged alike: indices when palettized, otherwise ARGB iff 32 bits deep |
| RsbFacts.PixelsDecoded | src/rsb.rs:55-73 | pixel i is byte 1040+i when palettized, and otherwise the word at 2i past the section, tagged by the mask |
| RsbFacts.MaskedPixelsDecoded | src/rsb.rs:75-84 | masked pixels exist iff version 0 with palette 1; then the kept mask is the second one and pixel i is the word after it at 2i |
| RsbFacts.FirstBitMaskKept | src/rsb.rs:29-49 | without a palette the kept mask is the one after the dimensions (version 1) or after the palette word (palette 0) |
| RsbFacts.UnsupportedVersionRejected | src/rsb.rs:20-22 | a version of 2 or more fails with that version |
| RsbFacts.UnhandledPaletteRejected | src/rsb.rs:43-45 | a version 0 file whose palette word is above 1 fails with that palette |
| RsbFacts.SizeOverflowRejected | src/rsb.rs:53 | width·height beyond 32 bits fails with `ArithmeticOverflow` |
| RsbFacts.DepthOverflowAfterSection | src/rsb.rs:53-71 | after any section without a colour table whose mask's channel sum leaves 32 bits, a non-empty image fails with `ArithmeticOverflow` at its first 16-bit pixel |
| RsbFacts.DepthOverflowRejected | src/rsb.rs:48-50 | in a version 1 file, whose mask follows the dimensions, such a mask fails the decode with `ArithmeticOverflow` |
| RsbFacts.Palette0Section | src/rsb.rs:26-29 | in version 0, palette word 0 at offset 12 and a mask at 16 make a section with that palette and mask, ending at 32 |
| RsbFacts.DepthOverflowRejectedVersion0 | src/rsb.rs:26-29 | in a version 0 file with palette 0, whose mask follows the palette word, such a mask fails the decode with `ArithmeticOverflow` |
| RsbFacts.TinyFileDecodes | src/rsb.rs:381-429 | a 2×1 version 1 file with mask 5-6-5-0 and words 0x4208, 0x1062 decodes to two BGRA pixels with (blue, green, red) (8, 16, 8) and (2, 3, 2), and no palette, table or masked copy |
| RsbTruncation.ExactTruncates | src/rsb.rs:58-59 | a fixed-length read at p of a prefix of length k is unchanged when it ends by k and fails when it starts by k and ends after it |
| RsbTruncation.BitMaskTruncates | src/rsb.rs:166-173 | the same for the 16-byte bit mask |
| RsbTruncation.SectionTruncates | src/rsb.rs:26-51 | the same for the palette section of either version |
| RsbTruncation.PixelTruncates | src/rsb.rs:56-71 | the same for one pixel, palettized or not |
| RsbTruncation.MaskedPixelTruncates | src/rsb.rs:80-81 | the same for one masked pixel |
| RsbTruncation.CountTruncates | src/rsb.rs:53-84 | a counted list of reads that each behave this way behaves this way |
| RsbTruncation.PixelsTruncate | src/rsb.rs:53-73 | the same for the width·height pixels |
| RsbTruncation.MaskedPixelsTruncate | src/rsb.rs:75-84 | the same for the masked copy |
| RsbTruncation.TruncatedRsb | src/rsb.rs:18-87 | a decodable file cut before the end of its last read fails to decode, and cut at that end or later decodes to the same texture |
| RsbTruncation.ReadWithinFile | src/rsb.rs:18-87 | every byte a successful decode reads lies inside the file |
| RsbFormat.Size | src/rsb.rs:127-129 | defines the pixel count as width·height in exact arithmetic; its ensures only restates the no-overflow requires, and what it means, that a decoded texture holds exactly this many pixels, is proved by `RsbFacts.UniformPixels` |
| Pixels.Bits | src/rsb.rs:183-185 | defines the depth as the sum of the four widths, none of the additions wrapping; its effect on the pixel tag is proved by `RsbFacts.WordTagged` and `PixelFacts.Mask565Depth` |
| Pixels.IsArgb | src/rsb.rs:177-180 | defines ARGB order as a depth of exactly 32; that it decides the tag of every word pixel is proved by `RsbFacts.WordTagged`, `RsbFacts.PixelsTaggedAt` and `RsbFacts.UniformPixels` |

## Left out

- File I/O: `rsb::read` and `map::read` open and load a file by name
  (src/rsb.rs:8-17, src/map.rs:63-70). The model starts from the loaded
  bytes, and the file name the texture keeps is not modelled.
- `Display` for `Rsb` (src/rsb.rs:133-152): only formats values.
- Error context labels (`context`, `with_context`) and message texts. The
  model keeps only the kind of error.
- Floating point. An f32 is copied between the file and the records and
  never computed with, so it is kept as its 32-bit pattern.
- Release builds. `width * height`, `bits()` and the shifts in the channel
  accessors panic on overflow in a debug build and wrap in a release
  build. The decoder reports the debug panics as `ArithmeticOverflow`.
  The accessors take the absence of wrap-around as a precondition.
  Release-build wrap-around is not modelled.
- Channel access on a palette index: the source calls `unimplemented!`
  there, and the accessors require a word pixel.
- Allocation: `Vec::with_capacity` reserves memory only. An allocation
  failure on a huge count is not modelled.
- Pixels.Bits and Pixels.IsArgb carry no ensures of their own: facts
  about sums of 32-bit words are beyond the solver within the resource
  bound. Their meaning is proved through `TaggedBy`, `WordTagged` and
  `Mask565Depth`.
- Pixels.Pixel.R, G, B and A (and the same on `MaskedPixel`): the contracts
  state the None case and the bound. The shift each one uses is given by
  the body and the layout table of the module, not by its ensures.
- PixelFacts: putting channels back together is proved only for the 5-6-5
  mask of the game's textures. It is not proved for an arbitrary mask or
  for 32-bit ARGB data.
- Tests: in the fourth BGRA sample of src/rsb.rs, the comment names the
  bytes 0xa3, 0x10 but the data is 0x04, 0x21. The model uses the data,
  word 0x2104.
