/** The MAP wire grammar as pure parsers. Each `ParseX(d, p)` reads one
    record of type X from the buffer `d` at position `p` in exactly the
    order the source's `X::read` does and yields the record and the
    position after it, or the first failure. */
module MapGrammar {
  import opened Bytes
  import opened MapTypes

  /** The bytes of an ASCII string. */
  function AsciiBytes(s: string): (r: seq<byte>)
    requires forall i :: 0 <= i < |s| ==> s[i] as int < 0x80
    ensures |r| == |s|
    ensures forall i :: 0 <= i < |s| ==> r[i] as int == s[i] as int
  {
    seq(|s|, i requires 0 <= i < |s| => s[i] as int as byte)
  }

  /** The content of the first string of every MAP file. */
  const Magic: seq<byte> := AsciiBytes("BeginMapv2.1")

  /** The content of the string that must follow the eight sections. */
  const EndMarker: seq<byte> := AsciiBytes("EndMap")

  /** The section-header name that announces an inline version number and
      a second name. */
  const VersionMarker: seq<byte> := AsciiBytes("Version")

  // ---------------------------------------------------------------------
  // Section headers

  /** `section_header_short`: an id and a name; the name "Version" is
      followed by a discarded u32 and the name actually meant. */
  function ParseSectionHeaderShort(d: seq<byte>, p: nat): Result<Parsed<SectionHeader>> {
    var id :- U32At(d, p);
    var name :- CStringAt(d, id.next);
    if name.value == VersionMarker then
      var version :- U32At(d, name.next);
      var shortName :- CStringAt(d, version.next);
      Ok(Parsed(SectionHeader(id.value, Latin1ToUtf8(shortName.value)), shortName.next))
    else
      Ok(Parsed(SectionHeader(id.value, Latin1ToUtf8(name.value)), name.next))
  }

  /** `section_header`: a discarded byte size, then the short form. */
  function ParseSectionHeader(d: seq<byte>, p: nat): Result<Parsed<SectionHeader>> {
    var size :- U32At(d, p);
    ParseSectionHeaderShort(d, size.next)
  }

  // ---------------------------------------------------------------------
  // Small value records

  function ParseVertex(d: seq<byte>, p: nat): Result<Parsed<Vertex>> {
    var xyz :- F32XyzAt(d, p);
    Ok(Parsed(Vertex(xyz.value.0, xyz.value.1, xyz.value.2), xyz.next))
  }

  function ParseVec3f(d: seq<byte>, p: nat): Result<Parsed<Vec3f>> {
    var xyz :- F32XyzAt(d, p);
    Ok(Parsed(Vec3f(xyz.value.0, xyz.value.1, xyz.value.2), xyz.next))
  }

  function ParseVec6f(d: seq<byte>, p: nat): Result<Parsed<Vec6f>> {
    var a :- F32XyzAt(d, p);
    var b :- F32XyzAt(d, a.next);
    Ok(Parsed(Vec6f(a.value.0, a.value.1, a.value.2, b.value.0, b.value.1, b.value.2), b.next))
  }

  function ParseVec8f(d: seq<byte>, p: nat): Result<Parsed<Vec8f>> {
    var a :- F32XyzAt(d, p);
    var b :- F32XyzAt(d, a.next);
    var c :- F32XyAt(d, b.next);
    Ok(Parsed(Vec8f(a.value.0, a.value.1, a.value.2, b.value.0, b.value.1, b.value.2,
                    c.value.0, c.value.1), c.next))
  }

  function ParseNormalCoord(d: seq<byte>, p: nat): Result<Parsed<NormalCoord>> {
    var xyz :- F32XyzAt(d, p);
    Ok(Parsed(NormalCoord(xyz.value.0, xyz.value.1, xyz.value.2), xyz.next))
  }

  function ParseUvCoord(d: seq<byte>, p: nat): Result<Parsed<UvCoord>> {
    var u :- F32At(d, p);
    var v :- F32At(d, u.next);
    Ok(Parsed(UvCoord(u.value, v.value), v.next))
  }

  function ParseColor4f(d: seq<byte>, p: nat): Result<Parsed<Color4f>> {
    var r :- F32At(d, p);
    var g :- F32At(d, r.next);
    var b :- F32At(d, g.next);
    var a :- F32At(d, b.next);
    Ok(Parsed(Color4f(r.value, g.value, b.value, a.value), a.next))
  }

  function ParseFaceNormal(d: seq<byte>, p: nat): Result<Parsed<FaceNormal>> {
    var xyz :- F32XyzAt(d, p);
    var dist :- F32At(d, xyz.next);
    Ok(Parsed(FaceNormal(xyz.value.0, xyz.value.1, xyz.value.2, dist.value), dist.next))
  }

  /** Three u16 vertex (or texture) indices of one face. */
  function ParseIndexTriple(d: seq<byte>, p: nat): Result<Parsed<IndexTriple>> {
    var p1 :- U16At(d, p);
    var p2 :- U16At(d, p1.next);
    var p3 :- U16At(d, p2.next);
    Ok(Parsed((p1.value, p2.value, p3.value), p3.next))
  }

  function ParseTransformationMatrix(d: seq<byte>, p: nat): Result<Parsed<TransformationMatrix>> {
    var x :- ParseVec3f(d, p);
    var y :- ParseVec3f(d, x.next);
    var z :- ParseVec3f(d, y.next);
    var pos :- ParseVec3f(d, z.next);
    Ok(Parsed(TransformationMatrix(x.value, y.value, z.value, pos.value), pos.next))
  }

  // ---------------------------------------------------------------------
  // Header and materials

  /** `MapHeader::read`: the magic string, then the creation timestamp. */
  function ParseMapHeader(d: seq<byte>, p: nat): Result<Parsed<MapHeader>> {
    var magic :- CStringAt(d, p);
    if magic.value != Magic then Err(MagicMismatch(magic.value))
    else
      var timestamp :- U32At(d, magic.next);
      Ok(Parsed(MapHeader(timestamp.value), timestamp.next))
  }

  /** The code each texture address mode is stored as. */
  function AddressModeCode(m: TextureAddressMode): u32 {
    match m
    case Opaque => 0
    case Wrap => 1
    case Clamp => 3
  }

  /** The `TextureAddressMode` match: 0, 1 and 3 are the only codes. */
  function AddressModeFromCode(v: u32): (r: Result<TextureAddressMode>)
    ensures r.Ok? <==> v in {0, 1, 3}
    ensures r.Ok? ==> AddressModeCode(r.value) == v
    ensures r.Err? ==> r.error == UnknownTextureAddressMode(v)
  {
    if v == 0 then Ok(Opaque)
    else if v == 1 then Ok(Wrap)
    else if v == 3 then Ok(Clamp)
    else Err(UnknownTextureAddressMode(v))
  }

  function ParseTextureAddressMode(d: seq<byte>, p: nat): Result<Parsed<TextureAddressMode>> {
    var code :- U32At(d, p);
    var mode :- AddressModeFromCode(code.value);
    Ok(Parsed(mode, code.next))
  }

  function ParseMaterial(d: seq<byte>, p: nat): Result<Parsed<Material>> {
    var header :- ParseSectionHeader(d, p);
    var filename :- CStringAt(d, header.next);
    var opacity :- F32At(d, filename.next);
    var emissive :- U32At(d, opacity.next);
    var mode :- ParseTextureAddressMode(d, emissive.next);
    var ambient :- ParseColor4f(d, mode.next);
    var diffuse :- ParseColor4f(d, ambient.next);
    var specular :- ParseColor4f(d, diffuse.next);
    var level :- F32At(d, specular.next);
    var twoSided :- BoolAt(d, level.next);
    Ok(Parsed(Material(header.value.id, Latin1ToUtf8(filename.value), header.value.name,
                       opacity.value, emissive.value, mode.value, ambient.value,
                       diffuse.value, specular.value, level.value, twoSided.value),
              twoSided.next))
  }

  /** The section header's name is read and dropped. */
  function ParseMaterials(d: seq<byte>, p: nat): Result<Parsed<Materials>> {
    var header :- ParseSectionHeader(d, p);
    var n :- U32At(d, header.next);
    var materials :- ParseCount(ParseMaterial, d, n.next, n.value as nat);
    Ok(Parsed(Materials(header.value.id, materials.value), materials.next))
  }

  // ---------------------------------------------------------------------
  // Geometry

  function ParseFaces(d: seq<byte>, p: nat): Result<Parsed<Faces>> {
    var n :- U32At(d, p);
    var normals :- ParseCount(ParseFaceNormal, d, n.next, n.value as nat);
    var faceIndices :- ParseCount(ParseIndexTriple, d, normals.next, n.value as nat);
    var textureIndices :- ParseCount(ParseIndexTriple, d, faceIndices.next, n.value as nat);
    Ok(Parsed(Faces(normals.value, faceIndices.value, textureIndices.value), textureIndices.next))
  }

  function ParseTextureVertices(d: seq<byte>, p: nat): Result<Parsed<TextureVertices>> {
    var n :- U32At(d, p);
    var normals :- ParseCount(ParseNormalCoord, d, n.next, n.value as nat);
    var uvs :- ParseCount(ParseUvCoord, d, normals.next, n.value as nat);
    var colors :- ParseCount(ParseColor4f, d, uvs.next, n.value as nat);
    Ok(Parsed(TextureVertices(normals.value, uvs.value, colors.value), colors.next))
  }

  function ParseObjectData(d: seq<byte>, p: nat): Result<Parsed<ObjectData>> {
    var mn :- U32At(d, p);
    var faces :- ParseFaces(d, mn.next);
    var tv :- ParseTextureVertices(d, faces.next);
    Ok(Parsed(ObjectData(mn.value, faces.value, tv.value), tv.next))
  }

  function ParseCollisions(d: seq<byte>, p: nat): Result<Parsed<Collisions>> {
    var n :- U32At(d, p);
    var vertices :- ParseCount(ParseVertex, d, n.next, n.value as nat);
    var m :- U32At(d, vertices.next);
    var faces :- ParseCount(ParseFaceNormal, d, m.next, m.value as nat);
    Ok(Parsed(Collisions(vertices.value, faces.value), faces.next))
  }

  function ParseTag(d: seq<byte>, p: nat): Result<Parsed<Tag>> {
    var c1 :- ParseIndexTriple(d, p);
    var f1 :- U16At(d, c1.next);
    var c2 :- ParseIndexTriple(d, f1.next);
    var f2 :- U16At(d, c2.next);
    Ok(Parsed(Tag(c1.value, f1.value, c2.value, f2.value), f2.next))
  }

  /** The text is checked to be UTF-8 only after the indices are read. */
  function ParseEIndices(d: seq<byte>, p: nat): Result<Parsed<EIndices>> {
    var text :- CStringAt(d, p);
    var mn :- U32At(d, text.next);
    var n :- U32At(d, mn.next);
    var indices :- ParseCount(U16At, d, n.next, n.value as nat);
    if !IsUtf8(text.value) then Err(InvalidUtf8)
    else Ok(Parsed(EIndices(text.value, mn.value, indices.value), indices.next))
  }

  /** Two section headers in a row precede an object's body. */
  function ParseObject(d: seq<byte>, p: nat): Result<Parsed<Object>> {
    var header :- ParseSectionHeader(d, p);
    var objectHeader :- ParseSectionHeader(d, header.next);
    var nv :- U32At(d, objectHeader.next);
    var vertices :- ParseCount(ParseVertex, d, nv.next, nv.value as nat);
    var nd :- U32At(d, vertices.next);
    var datas :- ParseCount(ParseObjectData, d, nd.next, nd.value as nat);
    var collisions :- ParseCollisions(d, datas.next);
    var nt :- U32At(d, collisions.next);
    var tags :- ParseCount(ParseTag, d, nt.next, nt.value as nat);
    var ni :- U32At(d, tags.next);
    var ind :- ParseCount(ParseEIndices, d, ni.next, ni.value as nat);
    Ok(Parsed(Object(header.value.id, header.value.name, objectHeader.value.id,
                     objectHeader.value.name, vertices.value, datas.value, collisions.value,
                     tags.value, ind.value), ind.next))
  }

  function ParseGeometries(d: seq<byte>, p: nat): Result<Parsed<Geometries>> {
    var header :- ParseSectionHeader(d, p);
    var n :- U32At(d, header.next);
    var objects :- ParseCount(ParseObject, d, n.next, n.value as nat);
    Ok(Parsed(Geometries(header.value.id, objects.value), objects.next))
  }

  // ---------------------------------------------------------------------
  // Portals and lights

  function ParsePortal(d: seq<byte>, p: nat): Result<Parsed<Portal>> {
    var header :- ParseSectionHeader(d, p);
    var n :- U32At(d, header.next);
    var coordinates :- ParseCount(ParseVertex, d, n.next, n.value as nat);
    var room :- U32At(d, coordinates.next);
    var opposite :- U32At(d, room.next);
    Ok(Parsed(Portal(header.value.id, header.value.name, coordinates.value, room.value,
                     opposite.value), opposite.next))
  }

  function ParsePortals(d: seq<byte>, p: nat): Result<Parsed<Portals>> {
    var header :- ParseSectionHeader(d, p);
    var n :- U32At(d, header.next);
    var portals :- ParseCount(ParsePortal, d, n.next, n.value as nat);
    Ok(Parsed(Portals(header.value.id, header.value.name, portals.value), portals.next))
  }

  /** A header and a count, and nothing after the count. */
  function ParseLights(d: seq<byte>, p: nat): Result<Parsed<Lights>> {
    var header :- ParseSectionHeader(d, p);
    var n :- U32At(d, header.next);
    Ok(Parsed(Lights(header.value.id, header.value.name, n.value), n.next))
  }

  // ---------------------------------------------------------------------
  // Dynamic objects

  function IdValue(id: Id): u32 {
    match id
    case Dynamic => 14
    case Animation => 15
    case RepeatableTouchplate => 16
    case Glass => 20
    case OneTimeTouchplate => 25
    case Halo => 31
    case StaticEffect => 36
  }

  /** `Id::try_from`: the section id must be one of the seven known ids. */
  function IdTryFrom(v: u32): (r: Result<Id>)
    ensures r.Ok? <==> v in {14, 15, 16, 20, 25, 31, 36}
    ensures r.Ok? ==> IdValue(r.value) == v
    ensures r.Err? ==> r.error == UnknownId(v)
  {
    if v == IdValue(Id.Dynamic) then Ok(Id.Dynamic)
    else if v == IdValue(Id.Animation) then Ok(Id.Animation)
    else if v == IdValue(Id.RepeatableTouchplate) then Ok(Id.RepeatableTouchplate)
    else if v == IdValue(Id.Glass) then Ok(Id.Glass)
    else if v == IdValue(Id.OneTimeTouchplate) then Ok(Id.OneTimeTouchplate)
    else if v == IdValue(Id.Halo) then Ok(Id.Halo)
    else if v == IdValue(Id.StaticEffect) then Ok(Id.StaticEffect)
    else Err(UnknownId(v))
  }

  function ParseKindDynamicParamStruct(d: seq<byte>, p: nat): Result<Parsed<KindDynamicParamStruct>> {
    var name :- Latin1At(d, p);
    var unknown1 :- ParseCount(F32At, d, name.next, 9);
    var unknown2 :- ParseCount(U32At, d, unknown1.next, 2);
    Ok(Parsed(KindDynamicParamStruct(name.value, unknown1.value, unknown2.value), unknown2.next))
  }

  /** The shadow count: a positive first count is a list of structs; a zero
      first count is followed by a second count, that many names and four
      words. */
  function ParseKindDynamicParams(d: seq<byte>, p: nat): Result<Parsed<KindDynamicParams>> {
    var count :- U32At(d, p);
    if count.value > 0 then
      var structs :- ParseCount(ParseKindDynamicParamStruct, d, count.next, count.value as nat);
      Ok(Parsed(Struct(structs.value), structs.next))
    else
      var flatCount :- U32At(d, count.next);
      var names :- ParseCount(Latin1At, d, flatCount.next, flatCount.value as nat);
      var unknown :- ParseCount(F32At, d, names.next, 4);
      Ok(Parsed(Flat(names.value, unknown.value), unknown.next))
  }

  function ParseDynamicObjectKindCommon(d: seq<byte>, p: nat): Result<Parsed<DynamicObjectKindCommon>> {
    var tm :- ParseTransformationMatrix(d, p);
    var name :- Latin1At(d, tm.next);
    var unknown1 :- U32At(d, name.next);
    var sounds :- ParseCount(Latin1At, d, unknown1.next, 4);
    var c2d :- Latin1At(d, sounds.next);
    var c3d :- Latin1At(d, c2d.next);
    var action :- Latin1At(d, c3d.next);
    var category :- Latin1At(d, action.next);
    var penetration :- Latin1At(d, category.next);
    var name2 :- Latin1At(d, penetration.next);
    var category2 :- Latin1At(d, name2.next);
    Ok(Parsed(DynamicObjectKindCommon(tm.value, name.value, unknown1.value, sounds.value,
                                      c2d.value, c3d.value, action.value, category.value,
                                      penetration.value, name2.value, category2.value),
              category2.next))
  }

  function ParseDynamicKind(d: seq<byte>, p: nat): (r: Result<Parsed<DynamicObjectKind>>)
    ensures r.Ok? ==> r.value.value.Dynamic?
  {
    var common :- ParseDynamicObjectKindCommon(d, p);
    var params :- ParseKindDynamicParams(d, common.next);
    Ok(Parsed(DynamicObjectKind.Dynamic(common.value, params.value), params.next))
  }

  function ParseAnimationKind(d: seq<byte>, p: nat): (r: Result<Parsed<DynamicObjectKind>>)
    ensures r.Ok? ==> r.value.value.Animation?
  {
    var common :- ParseDynamicObjectKindCommon(d, p);
    var unknown2 :- U32At(d, common.next);
    var n :- U32At(d, unknown2.next);
    var names :- ParseCount(Latin1At, d, n.next, n.value as nat);
    var unknown3 :- ParseCount(F32At, d, names.next, 3);
    var unknown4 :- U32At(d, unknown3.next);
    var name3 :- Latin1At(d, unknown4.next);
    var name4 :- Latin1At(d, name3.next);
    var animationType :- Latin1At(d, name4.next);
    var direction :- ParseVec3f(d, animationType.next);
    var distance :- F32At(d, direction.next);
    var velocity :- F32At(d, distance.next);
    Ok(Parsed(DynamicObjectKind.Animation(common.value, unknown2.value, names.value, unknown3.value,
                                          unknown4.value, name3.value, name4.value,
                                          animationType.value, direction.value, distance.value,
                                          velocity.value), velocity.next))
  }

  function ParseRepeatableTouchplateKind(d: seq<byte>, p: nat): (r: Result<Parsed<DynamicObjectKind>>)
    ensures r.Ok? ==> r.value.value.RepeatableTouchplate?
  {
    var common :- ParseDynamicObjectKindCommon(d, p);
    var unknown1 :- U32At(d, common.next);
    var na :- U32At(d, unknown1.next);
    var attachments :- ParseCount(Latin1At, d, na.next, na.value as nat);
    var unknown2 :- ParseCount(F32At, d, attachments.next, 3);
    var nn :- U32At(d, unknown2.next);
    var names :- ParseCount(Latin1At, d, nn.next, nn.value as nat);
    var name2 :- Latin1At(d, names.next);
    var name3 :- Latin1At(d, name2.next);
    var animationType :- Latin1At(d, name3.next);
    var direction :- ParseVec3f(d, animationType.next);
    var distance :- F32At(d, direction.next);
    var velocity :- F32At(d, distance.next);
    Ok(Parsed(DynamicObjectKind.RepeatableTouchplate(common.value, unknown1.value, attachments.value,
                                                     unknown2.value, names.value, name2.value,
                                                     name3.value, animationType.value,
                                                     direction.value, distance.value, velocity.value),
              velocity.next))
  }

  /** The glass name must be UTF-8, not Latin-1. */
  function ParseGlassKind(d: seq<byte>, p: nat): (r: Result<Parsed<DynamicObjectKind>>)
    ensures r.Ok? ==> r.value.value.Glass?
  {
    var name :- CStringAt(d, p);
    if !IsUtf8(name.value) then Err(InvalidUtf8)
    else Ok(Parsed(DynamicObjectKind.Glass(name.value), name.next))
  }

  function ParseOneTimeTouchplateKind(d: seq<byte>, p: nat): (r: Result<Parsed<DynamicObjectKind>>)
    ensures r.Ok? ==> r.value.value.OneTimeTouchplate?
  {
    var c2d :- Latin1At(d, p);
    var c3d :- Latin1At(d, c2d.next);
    var coordinates :- ParseVec6f(d, c3d.next);
    var n :- U32At(d, coordinates.next);
    var attachments :- ParseCount(Latin1At, d, n.next, n.value as nat);
    Ok(Parsed(DynamicObjectKind.OneTimeTouchplate(c2d.value, c3d.value, coordinates.value,
                                                  attachments.value), attachments.next))
  }

  function ParseHaloEntry(d: seq<byte>, p: nat): Result<Parsed<(string, Vec8f)>> {
    var name :- Latin1At(d, p);
    var v :- ParseVec8f(d, name.next);
    Ok(Parsed((name.value, v.value), v.next))
  }

  function ParseHaloKind(d: seq<byte>, p: nat): (r: Result<Parsed<DynamicObjectKind>>)
    ensures r.Ok? ==> r.value.value.Halo?
  {
    var count :- U32At(d, p);
    var halos :- ParseCount(ParseHaloEntry, d, count.next, count.value as nat);
    Ok(Parsed(DynamicObjectKind.Halo(halos.value), halos.next))
  }

  /** A static effect has no payload. */
  function ParseStaticEffectKind(d: seq<byte>, p: nat): Result<Parsed<DynamicObjectKind>> {
    Ok(Parsed(DynamicObjectKind.StaticEffect, p))
  }

  /** `DynamicObjectKind::read`: one grammar per id. */
  function ParseDynamicObjectKind(id: Id, d: seq<byte>, p: nat): Result<Parsed<DynamicObjectKind>> {
    match id
    case Dynamic => ParseDynamicKind(d, p)
    case Animation => ParseAnimationKind(d, p)
    case RepeatableTouchplate => ParseRepeatableTouchplateKind(d, p)
    case Glass => ParseGlassKind(d, p)
    case OneTimeTouchplate => ParseOneTimeTouchplateKind(d, p)
    case Halo => ParseHaloKind(d, p)
    case StaticEffect => ParseStaticEffectKind(d, p)
  }

  /** The id is checked only after the name and the transformation matrix
      have been read. */
  function ParseDynamicObject(d: seq<byte>, p: nat): Result<Parsed<DynamicObject>> {
    var header :- ParseSectionHeader(d, p);
    var name :- Latin1At(d, header.next);
    var tm :- ParseTransformationMatrix(d, name.next);
    var id :- IdTryFrom(header.value.id);
    var kind :- ParseDynamicObjectKind(id, d, tm.next);
    Ok(Parsed(DynamicObject(header.value.id, header.value.name, name.value, tm.value, kind.value),
              kind.next))
  }

  function ParseDynamicObjects(d: seq<byte>, p: nat): Result<Parsed<DynamicObjects>> {
    var header :- ParseSectionHeader(d, p);
    var n :- U32At(d, header.next);
    var objects :- ParseCount(ParseDynamicObject, d, n.next, n.value as nat);
    Ok(Parsed(DynamicObjects(header.value.id, header.value.name, objects.value), objects.next))
  }

  // ---------------------------------------------------------------------
  // Rooms

  function ParseTransformationWithAabb(d: seq<byte>, p: nat): Result<Parsed<TransformationWithAabb>> {
    var tm :- ParseTransformationMatrix(d, p);
    var aabb :- ParseCount(F32At, d, tm.next, 6);
    Ok(Parsed(TransformationWithAabb(tm.value, aabb.value), aabb.next))
  }

  function ParseShermanLevel(d: seq<byte>, p: nat): Result<Parsed<ShermanLevel>> {
    var name :- Latin1At(d, p);
    var n :- U32At(d, name.next);
    var tms :- ParseCount(ParseTransformationWithAabb, d, n.next, n.value as nat);
    var m :- U32At(d, tms.next);
    var unknown1 :- ParseCount(F32At, d, m.next, m.value as nat);
    var unknown2 :- U8At(d, unknown1.next);
    Ok(Parsed(ShermanLevel(name.value, tms.value, unknown1.value, unknown2.value), unknown2.next))
  }

  function ParseLevelHeight(d: seq<byte>, p: nat): Result<Parsed<LevelHeight>> {
    var height :- F32At(d, p);
    var unknown :- F32At(d, height.next);
    Ok(Parsed(LevelHeight(height.value, unknown.value), unknown.next))
  }

  /** An optional byte, read only when `present`. */
  function OptionalU8At(present: bool, d: seq<byte>, p: nat): Result<Parsed<Option<byte>>> {
    if present then
      var b :- U8At(d, p);
      Ok(Parsed(Some(b.value), b.next))
    else Ok(Parsed(None, p))
  }

  /** An optional run of `k` floats, read only when `present`. */
  function OptionalF32sAt(present: bool, k: nat, d: seq<byte>, p: nat): Result<Parsed<Option<seq<F32>>>> {
    if present then
      var a :- ParseCount(F32At, d, p, k);
      Ok(Parsed(Some(a.value), a.next))
    else Ok(Parsed(None, p))
  }

  /** The three optional fields of a room, decided in order: `unknown4`
      when `unknown1` is 0, `unknown5` when `unknown3` is 1, and `unknown6`
      when the value of `unknown4` is Some(1). */
  function ParseRoomOptionals(u1: byte, u3: byte, d: seq<byte>, p: nat)
    : Result<Parsed<(Option<byte>, Option<seq<F32>>, Option<seq<F32>>)>>
  {
    var u4 :- OptionalU8At(u1 == 0, d, p);
    var u5 :- OptionalF32sAt(u3 == 1, 6, d, u4.next);
    var u6 :- OptionalF32sAt(u4.value == Some(1), 6, d, u5.next);
    Ok(Parsed((u4.value, u5.value, u6.value), u6.next))
  }

  /** `Room::read`. The height count precedes `unknown7`. */
  function ParseRoom(d: seq<byte>, p: nat): Result<Parsed<Room>> {
    var header :- ParseSectionHeaderShort(d, p);
    var u1 :- U8At(d, header.next);
    var u2 :- U8At(d, u1.next);
    var u3 :- U8At(d, u2.next);
    var opt :- ParseRoomOptionals(u1.value, u3.value, d, u3.next);
    var n :- U32At(d, opt.next);
    var levels :- ParseCount(ParseShermanLevel, d, n.next, n.value as nat);
    var m :- U32At(d, levels.next);
    var u7 :- F32At(d, m.next);
    var heights :- ParseCount(ParseLevelHeight, d, u7.next, m.value as nat);
    Ok(Parsed(Room(header.value.id, header.value.name, u1.value, u2.value, u3.value, opt.value.0,
                   opt.value.1, opt.value.2, levels.value, u7.value, heights.value), heights.next))
  }

  function ParseRooms(d: seq<byte>, p: nat): Result<Parsed<Rooms>> {
    var header :- ParseSectionHeader(d, p);
    var n :- U32At(d, header.next);
    var rooms :- ParseCount(ParseRoom, d, n.next, n.value as nat);
    Ok(Parsed(Rooms(header.value.id, header.value.name, rooms.value), rooms.next))
  }

  // ---------------------------------------------------------------------
  // Transitions and planning levels

  function ParseTransitionCoords(d: seq<byte>, p: nat): Result<Parsed<TransitionCoords>> {
    var p1 :- ParseVec3f(d, p);
    var p2 :- ParseVec3f(d, p1.next);
    Ok(Parsed(TransitionCoords(p1.value, p2.value), p2.next))
  }

  function ParseTransition(d: seq<byte>, p: nat): Result<Parsed<Transition>> {
    var name :- Latin1At(d, p);
    var coords :- ParseTransitionCoords(d, name.next);
    Ok(Parsed(Transition(name.value, coords.value), coords.next))
  }

  function ParseTransitions(d: seq<byte>, p: nat): Result<Parsed<Transitions>> {
    var header :- ParseSectionHeader(d, p);
    var n :- U32At(d, header.next);
    var transitions :- ParseCount(ParseTransition, d, n.next, n.value as nat);
    Ok(Parsed(Transitions(header.value.id, header.value.name, transitions.value), transitions.next))
  }

  function ParsePlanningLevel(d: seq<byte>, p: nat): Result<Parsed<PlanningLevel>> {
    var number :- F32At(d, p);
    var height :- F32At(d, number.next);
    var n :- U32At(d, height.next);
    var names :- ParseCount(Latin1At, d, n.next, n.value as nat);
    Ok(Parsed(PlanningLevel(number.value, height.value, names.value), names.next))
  }

  function ParsePlanningLevels(d: seq<byte>, p: nat): Result<Parsed<PlanningLevels>> {
    var header :- ParseSectionHeader(d, p);
    var n :- U32At(d, header.next);
    var levels :- ParseCount(ParsePlanningLevel, d, n.next, n.value as nat);
    Ok(Parsed(PlanningLevels(header.value.id, header.value.name, levels.value), levels.next))
  }

  // ---------------------------------------------------------------------
  // The whole file

  /** `Map::read`: the header, the eight sections in their fixed order and
      the end string. Bytes after the end string are not looked at. */
  function ParseMap(d: seq<byte>, p: nat): Result<Parsed<Map>> {
    var header :- ParseMapHeader(d, p);
    var materials :- ParseMaterials(d, header.next);
    var geometries :- ParseGeometries(d, materials.next);
    var portals :- ParsePortals(d, geometries.next);
    var lights :- ParseLights(d, portals.next);
    var dynamicObjects :- ParseDynamicObjects(d, lights.next);
    var rooms :- ParseRooms(d, dynamicObjects.next);
    var transitions :- ParseTransitions(d, rooms.next);
    var planningLevels :- ParsePlanningLevels(d, transitions.next);
    var end :- CStringAt(d, planningLevels.next);
    if end.value != EndMarker then Err(MissingEnd)
    else Ok(Parsed(Map(header.value, materials.value, geometries.value, portals.value,
                       lights.value, dynamicObjects.value, rooms.value, transitions.value,
                       planningLevels.value), end.next))
  }

  /** Decoding a whole in-memory MAP file. */
  function DecodeMap(d: seq<byte>): Result<Map> {
    var m :- ParseMap(d, 0);
    Ok(m.value)
  }
}
