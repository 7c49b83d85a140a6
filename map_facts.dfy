/** Properties of the MAP grammar: the section-header convention, the magic
    and end strings around eight sections in a fixed order, the dispatch on
    dynamic-object ids, the data-dependent shapes (shadow count, room
    optional fields) and the counted lists. */
module MapFacts {
  import opened Bytes
  import opened ByteFacts
  import opened MapTypes
  import opened MapGrammar

  // ---------------------------------------------------------------------
  // Section headers

  /** `section_header` skips one word and is then `section_header_short`. */
  lemma SectionHeaderSkipsSize(d: seq<byte>, p: nat)
    ensures p + 4 <= |d| ==> ParseSectionHeader(d, p) == ParseSectionHeaderShort(d, p + 4)
    ensures p + 4 > |d| ==> ParseSectionHeader(d, p) == Err(UnexpectedEof)
  {
  }

  /** The id comes first; the name is the first string unless that string
      is "Version", in which case a word is skipped and the next string is
      the name. */
  lemma VersionQuirk(d: seq<byte>, p: nat)
    requires ParseSectionHeaderShort(d, p).Ok?
    ensures var h := ParseSectionHeaderShort(d, p).value;
            var first := CStringAt(d, p + 4);
            && h.value.id == U32At(d, p).value.value
            && first.Ok?
            && (first.value.value != VersionMarker ==>
                  h.value.name == Latin1ToUtf8(first.value.value) && h.next == first.value.next)
            && (first.value.value == VersionMarker ==>
                  var second := CStringAt(d, first.value.next + 4);
                  && second.Ok?
                  && h.value.name == Latin1ToUtf8(second.value.value)
                  && h.next == second.value.next)
  {
  }

  /** The bytes of a short section header whose name is not "Version". */
  function HeaderShortBytes(id: u32, name: seq<byte>): (r: seq<byte>)
    requires |name| < 0x1000
    ensures |r| == 4 + 4 + |name| + 1
  {
    LE32(id) + CStringBytes(name, 0)
  }

  lemma HeaderShortDecode(d: seq<byte>, p: nat, id: u32, name: seq<byte>)
    requires |name| < 0x1000 && name != VersionMarker
    requires At(d, p, HeaderShortBytes(id, name))
    ensures ParseSectionHeaderShort(d, p)
            == Ok(Parsed(SectionHeader(id, Latin1ToUtf8(name)), p + |HeaderShortBytes(id, name)|))
  {
    AtSplit(d, p, LE32(id), CStringBytes(name, 0));
    U32Decode(d, p, id);
    CStringDecode(d, p + 4, name, 0);
  }

  /** A "Version" header: the word after the first name is skipped and the
      second string becomes the name, even when it is "Version" again. */
  lemma VersionedHeaderDecode(d: seq<byte>, p: nat, id: u32, version: u32, name: seq<byte>)
    requires |name| < 0x1000
    requires At(d, p, LE32(id) + CStringBytes(VersionMarker, 0) + LE32(version) + CStringBytes(name, 0))
    ensures ParseSectionHeaderShort(d, p)
            == Ok(Parsed(SectionHeader(id, Latin1ToUtf8(name)), p + 4 + 12 + 4 + 4 + |name| + 1))
  {
    var a, b, c, e := LE32(id), CStringBytes(VersionMarker, 0), LE32(version), CStringBytes(name, 0);
    AtSplit(d, p, a + b + c, e);
    AtSplit(d, p, a + b, c);
    AtSplit(d, p, a, b);
    U32Decode(d, p, id);
    CStringDecode(d, p + 4, VersionMarker, 0);
    CStringDecode(d, p + 4 + 12 + 4, name, 0);
  }

  // ---------------------------------------------------------------------
  // Magic, section order and end string

  /** A decoded map always starts with the magic string. */
  lemma MagicRequired(d: seq<byte>)
    requires DecodeMap(d).Ok?
    ensures CStringAt(d, 0).Ok? && CStringAt(d, 0).value.value == Magic
  {
  }

  /** Any other first string is reported, with the string that was found. */
  lemma MagicMismatchRejected(d: seq<byte>)
    requires CStringAt(d, 0).Ok? && CStringAt(d, 0).value.value != Magic
    ensures DecodeMap(d) == Err(MagicMismatch(CStringAt(d, 0).value.value))
  {
  }

  /** Where each section of a MAP file starts; the header starts at 0 and
      `end` is where the closing string starts. */
  datatype Offsets = Offsets(
    materials: nat, geometries: nat, portals: nat, lights: nat, dynamicObjects: nat,
    rooms: nat, transitions: nat, planningLevels: nat, end: nat)

  /** The header, the eight sections in their fixed order and the end string
      "EndMap" lie one after another at the offsets `o`, and `m` holds what
      each of them decodes to. */
  predicate SectionChain(d: seq<byte>, o: Offsets, m: Map) {
    && ParseMapHeader(d, 0) == Ok(Parsed(m.header, o.materials))
    && ParseMaterials(d, o.materials) == Ok(Parsed(m.materials, o.geometries))
    && ParseGeometries(d, o.geometries) == Ok(Parsed(m.geometries, o.portals))
    && ParsePortals(d, o.portals) == Ok(Parsed(m.portals, o.lights))
    && ParseLights(d, o.lights) == Ok(Parsed(m.lights, o.dynamicObjects))
    && ParseDynamicObjects(d, o.dynamicObjects) == Ok(Parsed(m.dynamicObjects, o.rooms))
    && ParseRooms(d, o.rooms) == Ok(Parsed(m.rooms, o.transitions))
    && ParseTransitions(d, o.transitions) == Ok(Parsed(m.transitions, o.planningLevels))
    && ParsePlanningLevels(d, o.planningLevels) == Ok(Parsed(m.planningLevels, o.end))
    && CStringAt(d, o.end).Ok? && CStringAt(d, o.end).value.value == EndMarker
  }

  /** A decoded map is a section chain. */
  lemma DecodedMapIsSectionChain(d: seq<byte>, m: Map)
    requires DecodeMap(d) == Ok(m)
    ensures exists o :: SectionChain(d, o, m)
  {
    assert ParseMapHeader(d, 0).Ok?;
    var h := ParseMapHeader(d, 0).value;
    assert ParseMaterials(d, h.next).Ok?;
    var p1 := ParseMaterials(d, h.next).value;
    assert ParseGeometries(d, p1.next).Ok?;
    var p2 := ParseGeometries(d, p1.next).value;
    assert ParsePortals(d, p2.next).Ok?;
    var p3 := ParsePortals(d, p2.next).value;
    assert ParseLights(d, p3.next).Ok?;
    var p4 := ParseLights(d, p3.next).value;
    assert ParseDynamicObjects(d, p4.next).Ok?;
    var p5 := ParseDynamicObjects(d, p4.next).value;
    assert ParseRooms(d, p5.next).Ok?;
    var p6 := ParseRooms(d, p5.next).value;
    assert ParseTransitions(d, p6.next).Ok?;
    var p7 := ParseTransitions(d, p6.next).value;
    assert ParsePlanningLevels(d, p7.next).Ok?;
    var p8 := ParsePlanningLevels(d, p7.next).value;
    assert CStringAt(d, p8.next).Ok? && CStringAt(d, p8.next).value.value == EndMarker;
    assert m == Map(h.value, p1.value, p2.value, p3.value, p4.value, p5.value, p6.value,
                    p7.value, p8.value);
    var o := Offsets(h.next, p1.next, p2.next, p3.next, p4.next, p5.next, p6.next, p7.next,
                     p8.next);
    assert SectionChain(d, o, m);
  }

  /** A section chain decodes to its map. */
  lemma SectionChainDecodes(d: seq<byte>, o: Offsets, m: Map)
    requires SectionChain(d, o, m)
    ensures DecodeMap(d) == Ok(m)
  {
  }

  /** A buffer decodes to `m` exactly when it is a section chain for `m`. */
  lemma DecodeMapIsSectionChain(d: seq<byte>, m: Map)
    ensures DecodeMap(d) == Ok(m) <==> exists o :: SectionChain(d, o, m)
  {
    if DecodeMap(d) == Ok(m) {
      DecodedMapIsSectionChain(d, m);
    }
    if o :| SectionChain(d, o, m) {
      SectionChainDecodes(d, o, m);
    }
  }

  /** After the eight sections, any string other than "EndMap" is rejected. */
  lemma MissingEndRejected(d: seq<byte>, o: Offsets, m: Map)
    requires ParseMapHeader(d, 0) == Ok(Parsed(m.header, o.materials))
    requires ParseMaterials(d, o.materials) == Ok(Parsed(m.materials, o.geometries))
    requires ParseGeometries(d, o.geometries) == Ok(Parsed(m.geometries, o.portals))
    requires ParsePortals(d, o.portals) == Ok(Parsed(m.portals, o.lights))
    requires ParseLights(d, o.lights) == Ok(Parsed(m.lights, o.dynamicObjects))
    requires ParseDynamicObjects(d, o.dynamicObjects) == Ok(Parsed(m.dynamicObjects, o.rooms))
    requires ParseRooms(d, o.rooms) == Ok(Parsed(m.rooms, o.transitions))
    requires ParseTransitions(d, o.transitions) == Ok(Parsed(m.transitions, o.planningLevels))
    requires ParsePlanningLevels(d, o.planningLevels) == Ok(Parsed(m.planningLevels, o.end))
    requires CStringAt(d, o.end).Ok? && CStringAt(d, o.end).value.value != EndMarker
    ensures DecodeMap(d) == Err(MissingEnd)
  {
  }

  // ---------------------------------------------------------------------
  // Empty sections

  /** A section with no entries: a size word, a short header and a zero
      count (for Lights, a light count of zero). */
  function EmptySectionBytes(id: u32, name: seq<byte>): (r: seq<byte>)
    requires |name| < 0x1000
    ensures |r| == 4 + |HeaderShortBytes(id, name)| + 4
  {
    LE32(0) + HeaderShortBytes(id, name) + LE32(0)
  }

  /** At `p` there is a section header ending at `h`, followed by a zero
      count ending at `e`. */
  predicate EmptySectionAt(d: seq<byte>, p: nat, h: nat, e: nat, id: u32, n: string) {
    && ParseSectionHeader(d, p) == Ok(Parsed(SectionHeader(id, n), h))
    && U32At(d, h) == Ok(Parsed(0, e))
  }

  /** An empty section's header and its zero count. */
  lemma EmptySectionParts(d: seq<byte>, p: nat, id: u32, name: seq<byte>)
    requires |name| < 0x1000 && name != VersionMarker
    requires At(d, p, EmptySectionBytes(id, name))
    ensures var e := p + |EmptySectionBytes(id, name)|;
      EmptySectionAt(d, p, e - 4, e, id, Latin1ToUtf8(name))
  {
    var h := HeaderShortBytes(id, name);
    AtSplit(d, p, LE32(0) + h, LE32(0));
    AtSplit(d, p, LE32(0), h);
    U32Decode(d, p, 0);
    HeaderShortDecode(d, p + 4, id, name);
    U32Decode(d, p + 4 + |h|, 0);
  }

  /** A header followed by a zero count is an empty section of every kind. */
  lemma EmptySectionDecode(d: seq<byte>, p: nat, h: nat, e: nat, id: u32, n: string)
    requires EmptySectionAt(d, p, h, e, id, n)
    ensures && ParseMaterials(d, p) == Ok(Parsed(Materials(id, []), e))
            && ParseGeometries(d, p) == Ok(Parsed(Geometries(id, []), e))
            && ParsePortals(d, p) == Ok(Parsed(Portals(id, n, []), e))
            && ParseLights(d, p) == Ok(Parsed(Lights(id, n, 0), e))
            && ParseDynamicObjects(d, p) == Ok(Parsed(DynamicObjects(id, n, []), e))
            && ParseRooms(d, p) == Ok(Parsed(Rooms(id, n, []), e))
            && ParseTransitions(d, p) == Ok(Parsed(Transitions(id, n, []), e))
            && ParsePlanningLevels(d, p) == Ok(Parsed(PlanningLevels(id, n, []), e))
  {
    assert ParseCount(ParseMaterial, d, e, 0) == Ok(Parsed([], e));
    assert ParseCount(ParseObject, d, e, 0) == Ok(Parsed([], e));
    assert ParseCount(ParsePortal, d, e, 0) == Ok(Parsed([], e));
    assert ParseCount(ParseDynamicObject, d, e, 0) == Ok(Parsed([], e));
    assert ParseCount(ParseRoom, d, e, 0) == Ok(Parsed([], e));
    assert ParseCount(ParseTransition, d, e, 0) == Ok(Parsed([], e));
    assert ParseCount(ParsePlanningLevel, d, e, 0) == Ok(Parsed([], e));
  }

  /** `n` copies of `s` one after another. */
  function Repeat(s: seq<byte>, n: nat): (r: seq<byte>)
    ensures |r| == |s| * n
  {
    if n == 0 then [] else Repeat(s, n - 1) + s
  }

  /** Copy k of a repetition lies k lengths of `s` after its start. */
  lemma {:induction false} RepeatAt(d: seq<byte>, p: nat, s: seq<byte>, n: nat)
    requires At(d, p, Repeat(s, n))
    ensures forall k :: 0 <= k < n ==> At(d, p + |s| * k, s)
  {
    if n > 0 {
      AtSplit(d, p, Repeat(s, n - 1), s);
      RepeatAt(d, p, s, n - 1);
    }
  }

  /** Four pieces laid end to end. */
  lemma FourPieces(d: seq<byte>, a: seq<byte>, b: seq<byte>, r: seq<byte>, e: seq<byte>)
    requires d == a + b + r + e
    ensures At(d, 0, a) && At(d, |a|, b) && At(d, |a| + |b|, r) && At(d, |a| + |b| + |r|, e)
  {
    assert At(d, 0, a + b + r + e);
    AtSplit(d, 0, a + b + r, e);
    AtSplit(d, 0, a + b, r);
    AtSplit(d, 0, a, b);
  }

  /** The name every section of the empty level carries: "A". */
  const EmptyName: seq<byte> := [65]

  /** One empty section of the empty level, 18 bytes long. */
  const EmptySection: seq<byte> := EmptySectionBytes(1, EmptyName)

  /** A whole level with nothing in it: the magic, timestamp 7, eight empty
      sections and the end string. */
  const EmptyMapFile: seq<byte> :=
    CStringBytes(Magic, 0) + LE32(7) + Repeat(EmptySection, 8) + CStringBytes(EndMarker, 0)

  /** Where the pieces of the empty level lie: the magic at 0, the timestamp
      at 17, section k at 21 + 18k and the end string at 165. */
  lemma EmptyMapLayout()
    ensures At(EmptyMapFile, 0, CStringBytes(Magic, 0))
    ensures At(EmptyMapFile, 17, LE32(7))
    ensures forall k :: 0 <= k < 8 ==> At(EmptyMapFile, 21 + 18 * k, EmptySection)
    ensures At(EmptyMapFile, 165, CStringBytes(EndMarker, 0))
  {
    var r := Repeat(EmptySection, 8);
    FourPieces(EmptyMapFile, CStringBytes(Magic, 0), LE32(7), r, CStringBytes(EndMarker, 0));
    RepeatAt(EmptyMapFile, 21, EmptySection, 8);
  }

  /** The empty level's header: the magic, then timestamp 7. */
  lemma EmptyMapHeader()
    ensures ParseMapHeader(EmptyMapFile, 0) == Ok(Parsed(MapHeader(7), 21))
  {
    EmptyMapLayout();
    CStringDecode(EmptyMapFile, 0, Magic, 0);
    U32Decode(EmptyMapFile, 17, 7);
  }

  /** Section k of the empty level: a header for id 1 and name "A", and a
      zero count. */
  lemma EmptyMapSection(k: nat)
    requires k < 8
    ensures EmptySectionAt(EmptyMapFile, 21 + 18 * k, 35 + 18 * k, 39 + 18 * k, 1, Latin1ToUtf8(EmptyName))
  {
    EmptyMapLayout();
    EmptySectionParts(EmptyMapFile, 21 + 18 * k, 1, EmptyName);
  }

  /** What the empty level holds: timestamp 7 and eight empty sections with
      id 1 and name "A". */
  const EmptyMap: Map :=
    var n := Latin1ToUtf8(EmptyName);
    Map(MapHeader(7), Materials(1, []), Geometries(1, []), Portals(1, n, []),
        Lights(1, n, 0), DynamicObjects(1, n, []), Rooms(1, n, []),
        Transitions(1, n, []), PlanningLevels(1, n, []))

  /** The first four sections of the empty level. */
  lemma EmptyMapFirstHalf()
    ensures ParseMaterials(EmptyMapFile, 21) == Ok(Parsed(EmptyMap.materials, 39))
    ensures ParseGeometries(EmptyMapFile, 39) == Ok(Parsed(EmptyMap.geometries, 57))
    ensures ParsePortals(EmptyMapFile, 57) == Ok(Parsed(EmptyMap.portals, 75))
    ensures ParseLights(EmptyMapFile, 75) == Ok(Parsed(EmptyMap.lights, 93))
  {
    var d, n := EmptyMapFile, Latin1ToUtf8(EmptyName);
    EmptyMapSection(0);
    EmptySectionDecode(d, 21, 35, 39, 1, n);
    EmptyMapSection(1);
    EmptySectionDecode(d, 39, 53, 57, 1, n);
    EmptyMapSection(2);
    EmptySectionDecode(d, 57, 71, 75, 1, n);
    EmptyMapSection(3);
    EmptySectionDecode(d, 75, 89, 93, 1, n);
  }

  /** The last four sections and the end string of the empty level. */
  lemma EmptyMapSecondHalf()
    ensures ParseDynamicObjects(EmptyMapFile, 93) == Ok(Parsed(EmptyMap.dynamicObjects, 111))
    ensures ParseRooms(EmptyMapFile, 111) == Ok(Parsed(EmptyMap.rooms, 129))
    ensures ParseTransitions(EmptyMapFile, 129) == Ok(Parsed(EmptyMap.transitions, 147))
    ensures ParsePlanningLevels(EmptyMapFile, 147) == Ok(Parsed(EmptyMap.planningLevels, 165))
    ensures CStringAt(EmptyMapFile, 165) == Ok(Parsed(EndMarker, 176))
  {
    var d, n := EmptyMapFile, Latin1ToUtf8(EmptyName);
    EmptyMapSection(4);
    EmptySectionDecode(d, 93, 107, 111, 1, n);
    EmptyMapSection(5);
    EmptySectionDecode(d, 111, 125, 129, 1, n);
    EmptyMapSection(6);
    EmptySectionDecode(d, 129, 143, 147, 1, n);
    EmptyMapSection(7);
    EmptySectionDecode(d, 147, 161, 165, 1, n);
    EmptyMapLayout();
    CStringDecode(d, 165, EndMarker, 0);
  }

  /** The empty level decodes, and every one of its eight lists is empty. */
  lemma EmptyMapDecodes()
    ensures DecodeMap(EmptyMapFile).Ok?
    ensures var m := DecodeMap(EmptyMapFile).value;
      && m.header.timestamp == 7
      && m.materials.materials == [] && m.geometries.objects == []
      && m.portals.portals == [] && m.lights.lightCount == 0
      && m.dynamicObjects.dynamicObjects == [] && m.rooms.rooms == []
      && m.transitions.transitions == [] && m.planningLevels.levels == []
  {
    EmptyMapHeader();
    EmptyMapFirstHalf();
    EmptyMapSecondHalf();
    SectionChainDecodes(EmptyMapFile, Offsets(21, 39, 57, 75, 93, 111, 129, 147, 165), EmptyMap);
  }

  // ---------------------------------------------------------------------
  // Dynamic objects

  /** The id a decoded payload belongs to. */
  function KindId(k: DynamicObjectKind): Id {
    match k
    case Dynamic(_, _) => Id.Dynamic
    case Animation(_, _, _, _, _, _, _, _, _, _, _) => Id.Animation
    case RepeatableTouchplate(_, _, _, _, _, _, _, _, _, _, _) => Id.RepeatableTouchplate
    case Glass(_) => Id.Glass
    case OneTimeTouchplate(_, _, _, _) => Id.OneTimeTouchplate
    case Halo(_) => Id.Halo
    case StaticEffect => Id.StaticEffect
  }

  /** Every id's number is accepted and maps back to that id. */
  lemma IdRoundTrip(id: Id)
    ensures IdTryFrom(IdValue(id)) == Ok(id)
  {
  }

  /** The payload grammar chosen is the one that belongs to the id. */
  lemma KindMatchesId(id: Id, d: seq<byte>, p: nat)
    requires ParseDynamicObjectKind(id, d, p).Ok?
    ensures KindId(ParseDynamicObjectKind(id, d, p).value.value) == id
  {
  }

  /** A decoded dynamic object's payload variant always agrees with its
      section id. */
  lemma DynamicObjectKindMatchesSection(d: seq<byte>, p: nat)
    requires ParseDynamicObject(d, p).Ok?
    ensures var o := ParseDynamicObject(d, p).value.value;
            IdTryFrom(o.sectionId) == Ok(KindId(o.kind)) && IdValue(KindId(o.kind)) == o.sectionId
  {
    var header := ParseSectionHeader(d, p).value;
    var name := Latin1At(d, header.next).value;
    var tm := ParseTransformationMatrix(d, name.next).value;
    var id := IdTryFrom(header.value.id).value;
    KindMatchesId(id, d, tm.next);
  }

  /** A section id outside the seven known ones is rejected once the name
      and the transformation matrix have been read. */
  lemma UnknownIdRejected(d: seq<byte>, p: nat)
    requires ParseSectionHeader(d, p).Ok?
    requires var h := ParseSectionHeader(d, p).value;
             && Latin1At(d, h.next).Ok?
             && ParseTransformationMatrix(d, Latin1At(d, h.next).value.next).Ok?
             && h.value.id !in {14, 15, 16, 20, 25, 31, 36}
    ensures ParseDynamicObject(d, p) == Err(UnknownId(ParseSectionHeader(d, p).value.value.id))
  {
  }

  /** A static effect has no payload bytes. */
  lemma StaticEffectConsumesNothing(d: seq<byte>, p: nat)
    ensures ParseDynamicObjectKind(Id.StaticEffect, d, p) == Ok(Parsed(DynamicObjectKind.StaticEffect, p))
  {
  }

  /** The shadow count: a positive first count c gives c structs; a zero
      first count gives as many names as the second count says, followed by
      exactly four words. */
  lemma ShadowCount(d: seq<byte>, p: nat)
    requires ParseKindDynamicParams(d, p).Ok?
    ensures var c := U32At(d, p).value.value;
            var r := ParseKindDynamicParams(d, p).value.value;
            && (r.Struct? <==> c > 0)
            && (r.Struct? ==> |r.structs| == c as int)
            && (r.Flat? ==> U32At(d, p + 4).Ok? && |r.names| == U32At(d, p + 4).value.value as int
                            && |r.unknown| == 4)
  {
    var c := U32At(d, p).value;
    if c.value > 0 {
      CountLength(ParseKindDynamicParamStruct, d, c.next, c.value as nat);
    } else {
      var c2 := U32At(d, c.next).value;
      CountLength(Latin1At, d, c2.next, c2.value as nat);
      var names := ParseCount(Latin1At, d, c2.next, c2.value as nat).value;
      CountLength(F32At, d, names.next, 4);
    }
  }

  /** A parameter struct carries nine words and then two integers. */
  lemma ParamStructShape(d: seq<byte>, p: nat)
    requires ParseKindDynamicParamStruct(d, p).Ok?
    ensures var s := ParseKindDynamicParamStruct(d, p).value.value;
            |s.unknown1| == 9 && |s.unknown2| == 2
  {
    var name := Latin1At(d, p).value;
    CountLength(F32At, d, name.next, 9);
    var u1 := ParseCount(F32At, d, name.next, 9).value;
    CountLength(U32At, d, u1.next, 2);
  }

  // ---------------------------------------------------------------------
  // Rooms

  /** A room's optional fields, read from position q: unknown4 is present
      exactly when unknown1 is 0 (and is then the byte at q), unknown5
      exactly when unknown3 is 1, unknown6 exactly when unknown4 is Some(1);
      each present run is 6 words, and they take 1, 24 and 24 bytes. */
  lemma RoomOptionalChain(u1: byte, u3: byte, d: seq<byte>, q: nat)
    requires q <= |d|
    requires ParseRoomOptionals(u1, u3, d, q).Ok?
    ensures var o := ParseRoomOptionals(u1, u3, d, q).value;
            var u4, u5, u6 := o.value.0, o.value.1, o.value.2;
            && (u4.Some? <==> u1 == 0)
            && (u4.Some? ==> q < |d| && u4.value == d[q])
            && (u5.Some? <==> u3 == 1)
            && (u6.Some? <==> u4 == Some(1))
            && (u5.Some? ==> |u5.value| == 6)
            && (u6.Some? ==> |u6.value| == 6)
            && o.next == q + (if u1 == 0 then 1 else 0) + (if u3 == 1 then 24 else 0)
                           + (if u4 == Some(1) then 24 else 0)
  {
    var u4 := OptionalU8At(u1 == 0, d, q).value;
    if u3 == 1 {
      F32sConsume(d, u4.next, 6);
      CountLength(F32At, d, u4.next, 6);
    }
    var u5 := OptionalF32sAt(u3 == 1, 6, d, u4.next).value;
    assert u5.next <= |d| by {
      if u3 == 1 { F32sConsume(d, u4.next, 6); }
    }
    if u4.value == Some(1) {
      F32sConsume(d, u5.next, 6);
      CountLength(F32At, d, u5.next, 6);
    }
  }

  /** A decoded room: its three leading bytes follow the header, the
      optional fields follow them, the level count follows those, and
      the height count follows the levels. */
  lemma RoomLayout(d: seq<byte>, p: nat)
    requires ParseRoom(d, p).Ok?
    ensures var room := ParseRoom(d, p).value.value;
            var h := ParseSectionHeaderShort(d, p).value.next;
            var o := ParseRoomOptionals(room.unknown1, room.unknown3, d, h + 3);
            && h + 3 <= |d|
            && room.unknown1 == d[h] && room.unknown2 == d[h + 1] && room.unknown3 == d[h + 2]
            && o.Ok?
            && o.value.value == (room.unknown4, room.unknown5, room.unknown6)
            && U32At(d, o.value.next).Ok?
            && |room.shermanLevels| == U32At(d, o.value.next).value.value as int
            && var n := U32At(d, o.value.next).value;
               var levels := ParseCount(ParseShermanLevel, d, n.next, n.value as nat);
               && levels.Ok? && levels.value.value == room.shermanLevels
               && U32At(d, levels.value.next).Ok?
               && |room.levelHeights| == U32At(d, levels.value.next).value.value as int
  {
    assert ParseSectionHeaderShort(d, p).Ok?;
    var header := ParseSectionHeaderShort(d, p).value;
    assert U8At(d, header.next).Ok?;
    var u1 := U8At(d, header.next).value;
    assert U8At(d, u1.next).Ok?;
    var u2 := U8At(d, u1.next).value;
    assert U8At(d, u2.next).Ok?;
    var u3 := U8At(d, u2.next).value;
    assert ParseRoomOptionals(u1.value, u3.value, d, u3.next).Ok?;
    var opt := ParseRoomOptionals(u1.value, u3.value, d, u3.next).value;
    assert U32At(d, opt.next).Ok?;
    var n := U32At(d, opt.next).value;
    assert ParseCount(ParseShermanLevel, d, n.next, n.value as nat).Ok?;
    CountLength(ParseShermanLevel, d, n.next, n.value as nat);
    var levels := ParseCount(ParseShermanLevel, d, n.next, n.value as nat).value;
    assert U32At(d, levels.next).Ok?;
    var m := U32At(d, levels.next).value;
    assert F32At(d, m.next).Ok?;
    var u7 := F32At(d, m.next).value;
    assert ParseCount(ParseLevelHeight, d, u7.next, m.value as nat).Ok?;
    CountLength(ParseLevelHeight, d, u7.next, m.value as nat);
  }

  // ---------------------------------------------------------------------
  // Counted lists and parallel arrays

  /** The count a section's list is prefixed with, just after its header. */
  function SectionCount(d: seq<byte>, p: nat): int
    requires ParseSectionHeader(d, p).Ok? && U32At(d, ParseSectionHeader(d, p).value.next).Ok?
  {
    U32At(d, ParseSectionHeader(d, p).value.next).value.value as int
  }

  lemma MaterialsCount(d: seq<byte>, p: nat)
    requires ParseMaterials(d, p).Ok?
    ensures |ParseMaterials(d, p).value.value.materials| == SectionCount(d, p)
  {
    var n := U32At(d, ParseSectionHeader(d, p).value.next).value;
    CountLength(ParseMaterial, d, n.next, n.value as nat);
  }

  lemma GeometriesCount(d: seq<byte>, p: nat)
    requires ParseGeometries(d, p).Ok?
    ensures |ParseGeometries(d, p).value.value.objects| == SectionCount(d, p)
  {
    var n := U32At(d, ParseSectionHeader(d, p).value.next).value;
    CountLength(ParseObject, d, n.next, n.value as nat);
  }

  lemma PortalsCount(d: seq<byte>, p: nat)
    requires ParsePortals(d, p).Ok?
    ensures |ParsePortals(d, p).value.value.portals| == SectionCount(d, p)
  {
    var n := U32At(d, ParseSectionHeader(d, p).value.next).value;
    CountLength(ParsePortal, d, n.next, n.value as nat);
  }

  lemma DynamicObjectsCount(d: seq<byte>, p: nat)
    requires ParseDynamicObjects(d, p).Ok?
    ensures |ParseDynamicObjects(d, p).value.value.dynamicObjects| == SectionCount(d, p)
  {
    var n := U32At(d, ParseSectionHeader(d, p).value.next).value;
    CountLength(ParseDynamicObject, d, n.next, n.value as nat);
  }

  lemma RoomsCount(d: seq<byte>, p: nat)
    requires ParseRooms(d, p).Ok?
    ensures |ParseRooms(d, p).value.value.rooms| == SectionCount(d, p)
  {
    var n := U32At(d, ParseSectionHeader(d, p).value.next).value;
    CountLength(ParseRoom, d, n.next, n.value as nat);
  }

  lemma TransitionsCount(d: seq<byte>, p: nat)
    requires ParseTransitions(d, p).Ok?
    ensures |ParseTransitions(d, p).value.value.transitions| == SectionCount(d, p)
  {
    var n := U32At(d, ParseSectionHeader(d, p).value.next).value;
    CountLength(ParseTransition, d, n.next, n.value as nat);
  }

  lemma PlanningLevelsCount(d: seq<byte>, p: nat)
    requires ParsePlanningLevels(d, p).Ok?
    ensures |ParsePlanningLevels(d, p).value.value.levels| == SectionCount(d, p)
  {
    var n := U32At(d, ParseSectionHeader(d, p).value.next).value;
    CountLength(ParsePlanningLevel, d, n.next, n.value as nat);
  }

  /** The three face arrays all have the length of the single count. */
  lemma FacesParallel(d: seq<byte>, p: nat)
    requires ParseFaces(d, p).Ok?
    ensures var f := ParseFaces(d, p).value.value;
            var n := U32At(d, p).value.value as int;
            |f.normals| == n && |f.faceIndices| == n && |f.textureIndices| == n
  {
    var n := U32At(d, p).value;
    CountLength(ParseFaceNormal, d, n.next, n.value as nat);
    var normals := ParseCount(ParseFaceNormal, d, n.next, n.value as nat).value;
    CountLength(ParseIndexTriple, d, normals.next, n.value as nat);
    var fi := ParseCount(ParseIndexTriple, d, normals.next, n.value as nat).value;
    CountLength(ParseIndexTriple, d, fi.next, n.value as nat);
  }

  /** The three texture-vertex arrays all have the length of the single
      count. */
  lemma TextureVerticesParallel(d: seq<byte>, p: nat)
    requires ParseTextureVertices(d, p).Ok?
    ensures var t := ParseTextureVertices(d, p).value.value;
            var n := U32At(d, p).value.value as int;
            |t.normals| == n && |t.uvCoords| == n && |t.faceColors| == n
  {
    var n := U32At(d, p).value;
    CountLength(ParseNormalCoord, d, n.next, n.value as nat);
    var normals := ParseCount(ParseNormalCoord, d, n.next, n.value as nat).value;
    CountLength(ParseUvCoord, d, normals.next, n.value as nat);
    var uvs := ParseCount(ParseUvCoord, d, normals.next, n.value as nat).value;
    CountLength(ParseColor4f, d, uvs.next, n.value as nat);
  }

  // ---------------------------------------------------------------------
  // Texture address modes

  /** Every mode's code is accepted and maps back to that mode. */
  lemma AddressModeRoundTrip(m: TextureAddressMode)
    ensures AddressModeFromCode(AddressModeCode(m)) == Ok(m)
  {
  }
}
