/** The MAP decoder as the source runs it: every `X::read` advances one
    shared cursor and builds its lists with a loop that pushes one element
    at a time. Each `ReadX` is proved to compute what `ParseX` specifies,
    both the result and the new cursor position. */
module MapReader {
  import opened Bytes
  import opened MapTypes
  import opened MapGrammar

  // ---------------------------------------------------------------------
  // Section headers

  method ReadSectionHeaderShort(c: Cursor) returns (r: Result<SectionHeader>)
    modifies c
    ensures Matches(ParseSectionHeaderShort(c.data, old(c.pos)), r, c.pos)
  {
    var id :- c.ReadU32();
    var name :- c.ReadCString();
    if name == VersionMarker {
      var _ :- c.ReadU32();
      name :- c.ReadCString();
    }
    return Ok(SectionHeader(id, Latin1ToUtf8(name)));
  }

  method ReadSectionHeader(c: Cursor) returns (r: Result<SectionHeader>)
    modifies c
    ensures Matches(ParseSectionHeader(c.data, old(c.pos)), r, c.pos)
  {
    var _ :- c.ReadU32();
    r := ReadSectionHeaderShort(c);
  }

  // ---------------------------------------------------------------------
  // Small value records

  method ReadVertex(c: Cursor) returns (r: Result<Vertex>)
    modifies c
    ensures Matches(ParseVertex(c.data, old(c.pos)), r, c.pos)
  {
    var xyz :- c.ReadF32Xyz();
    return Ok(Vertex(xyz.0, xyz.1, xyz.2));
  }

  method ReadVec3f(c: Cursor) returns (r: Result<Vec3f>)
    modifies c
    ensures Matches(ParseVec3f(c.data, old(c.pos)), r, c.pos)
  {
    var xyz :- c.ReadF32Xyz();
    return Ok(Vec3f(xyz.0, xyz.1, xyz.2));
  }

  method ReadVec6f(c: Cursor) returns (r: Result<Vec6f>)
    modifies c
    ensures Matches(ParseVec6f(c.data, old(c.pos)), r, c.pos)
  {
    var a :- c.ReadF32Xyz();
    var b :- c.ReadF32Xyz();
    return Ok(Vec6f(a.0, a.1, a.2, b.0, b.1, b.2));
  }

  method ReadVec8f(c: Cursor) returns (r: Result<Vec8f>)
    modifies c
    ensures Matches(ParseVec8f(c.data, old(c.pos)), r, c.pos)
  {
    var a :- c.ReadF32Xyz();
    var b :- c.ReadF32Xyz();
    var xy :- c.ReadF32Xy();
    return Ok(Vec8f(a.0, a.1, a.2, b.0, b.1, b.2, xy.0, xy.1));
  }

  method ReadNormalCoord(c: Cursor) returns (r: Result<NormalCoord>)
    modifies c
    ensures Matches(ParseNormalCoord(c.data, old(c.pos)), r, c.pos)
  {
    var xyz :- c.ReadF32Xyz();
    return Ok(NormalCoord(xyz.0, xyz.1, xyz.2));
  }

  method ReadUvCoord(c: Cursor) returns (r: Result<UvCoord>)
    modifies c
    ensures Matches(ParseUvCoord(c.data, old(c.pos)), r, c.pos)
  {
    var u :- c.ReadF32();
    var v :- c.ReadF32();
    return Ok(UvCoord(u, v));
  }

  method ReadColor4f(c: Cursor) returns (r: Result<Color4f>)
    modifies c
    ensures Matches(ParseColor4f(c.data, old(c.pos)), r, c.pos)
  {
    var red :- c.ReadF32();
    var green :- c.ReadF32();
    var blue :- c.ReadF32();
    var alpha :- c.ReadF32();
    return Ok(Color4f(red, green, blue, alpha));
  }

  method ReadFaceNormal(c: Cursor) returns (r: Result<FaceNormal>)
    modifies c
    ensures Matches(ParseFaceNormal(c.data, old(c.pos)), r, c.pos)
  {
    var xyz :- c.ReadF32Xyz();
    var dist :- c.ReadF32();
    return Ok(FaceNormal(xyz.0, xyz.1, xyz.2, dist));
  }

  method ReadIndexTriple(c: Cursor) returns (r: Result<IndexTriple>)
    modifies c
    ensures Matches(ParseIndexTriple(c.data, old(c.pos)), r, c.pos)
  {
    var p1 :- c.ReadU16();
    var p2 :- c.ReadU16();
    var p3 :- c.ReadU16();
    return Ok((p1, p2, p3));
  }

  method ReadTransformationMatrix(c: Cursor) returns (r: Result<TransformationMatrix>)
    modifies c
    ensures Matches(ParseTransformationMatrix(c.data, old(c.pos)), r, c.pos)
  {
    var x :- ReadVec3f(c);
    var y :- ReadVec3f(c);
    var z :- ReadVec3f(c);
    var position :- ReadVec3f(c);
    return Ok(TransformationMatrix(x, y, z, position));
  }

  // ---------------------------------------------------------------------
  // Header and materials

  method ReadMapHeader(c: Cursor) returns (r: Result<MapHeader>)
    modifies c
    ensures Matches(ParseMapHeader(c.data, old(c.pos)), r, c.pos)
  {
    var magic :- c.ReadCString();
    if magic != Magic {
      return Err(MagicMismatch(magic));
    }
    var timestamp :- c.ReadU32();
    return Ok(MapHeader(timestamp));
  }

  method ReadTextureAddressMode(c: Cursor) returns (r: Result<TextureAddressMode>)
    modifies c
    ensures Matches(ParseTextureAddressMode(c.data, old(c.pos)), r, c.pos)
  {
    var code :- c.ReadU32();
    r := AddressModeFromCode(code);
  }

  method ReadMaterial(c: Cursor) returns (r: Result<Material>)
    modifies c
    ensures Matches(ParseMaterial(c.data, old(c.pos)), r, c.pos)
  {
    var header :- ReadSectionHeader(c);
    var filename :- c.ReadCString();
    var opacity :- c.ReadF32();
    var emissive :- c.ReadU32();
    var mode :- ReadTextureAddressMode(c);
    var ambient :- ReadColor4f(c);
    var diffuse :- ReadColor4f(c);
    var specular :- ReadColor4f(c);
    var level :- c.ReadF32();
    var twoSided :- c.ReadBool();
    return Ok(Material(header.id, Latin1ToUtf8(filename), header.name, opacity, emissive, mode,
                       ambient, diffuse, specular, level, twoSided));
  }

  method ReadMaterials(c: Cursor) returns (r: Result<Materials>)
    modifies c
    ensures Matches(ParseMaterials(c.data, old(c.pos)), r, c.pos)
  {
    var header :- ReadSectionHeader(c);
    var n :- c.ReadU32();
    var start := c.pos;
    var materials: seq<Material> := [];
    for i := 0 to n as nat
      invariant ParseCount(ParseMaterial, c.data, start, i) == Ok(Parsed(materials, c.pos))
    {
      var m := ReadMaterial(c);
      if m.Err? {
        CountFailure(ParseMaterial, c.data, start, i + 1, n as nat);
        return Err(m.error);
      }
      materials := materials + [m.value];
    }
    return Ok(Materials(header.id, materials));
  }

  // ---------------------------------------------------------------------
  // Geometry

  method ReadFaces(c: Cursor) returns (r: Result<Faces>)
    modifies c
    ensures Matches(ParseFaces(c.data, old(c.pos)), r, c.pos)
  {
    var n :- c.ReadU32();
    var start := c.pos;
    var normals: seq<FaceNormal> := [];
    for i := 0 to n as nat
      invariant ParseCount(ParseFaceNormal, c.data, start, i) == Ok(Parsed(normals, c.pos))
    {
      var x := ReadFaceNormal(c);
      if x.Err? {
        CountFailure(ParseFaceNormal, c.data, start, i + 1, n as nat);
        return Err(x.error);
      }
      normals := normals + [x.value];
    }
    start := c.pos;
    var faceIndices: seq<IndexTriple> := [];
    for i := 0 to n as nat
      invariant ParseCount(ParseIndexTriple, c.data, start, i) == Ok(Parsed(faceIndices, c.pos))
    {
      var x := ReadIndexTriple(c);
      if x.Err? {
        CountFailure(ParseIndexTriple, c.data, start, i + 1, n as nat);
        return Err(x.error);
      }
      faceIndices := faceIndices + [x.value];
    }
    start := c.pos;
    var textureIndices: seq<IndexTriple> := [];
    for i := 0 to n as nat
      invariant ParseCount(ParseIndexTriple, c.data, start, i) == Ok(Parsed(textureIndices, c.pos))
    {
      var x := ReadIndexTriple(c);
      if x.Err? {
        CountFailure(ParseIndexTriple, c.data, start, i + 1, n as nat);
        return Err(x.error);
      }
      textureIndices := textureIndices + [x.value];
    }
    return Ok(Faces(normals, faceIndices, textureIndices));
  }

  method ReadTextureVertices(c: Cursor) returns (r: Result<TextureVertices>)
    modifies c
    ensures Matches(ParseTextureVertices(c.data, old(c.pos)), r, c.pos)
  {
    var n :- c.ReadU32();
    var start := c.pos;
    var normals: seq<NormalCoord> := [];
    for i := 0 to n as nat
      invariant ParseCount(ParseNormalCoord, c.data, start, i) == Ok(Parsed(normals, c.pos))
    {
      var x := ReadNormalCoord(c);
      if x.Err? {
        CountFailure(ParseNormalCoord, c.data, start, i + 1, n as nat);
        return Err(x.error);
      }
      normals := normals + [x.value];
    }
    start := c.pos;
    var uvs: seq<UvCoord> := [];
    for i := 0 to n as nat
      invariant ParseCount(ParseUvCoord, c.data, start, i) == Ok(Parsed(uvs, c.pos))
    {
      var x := ReadUvCoord(c);
      if x.Err? {
        CountFailure(ParseUvCoord, c.data, start, i + 1, n as nat);
        return Err(x.error);
      }
      uvs := uvs + [x.value];
    }
    start := c.pos;
    var colors: seq<Color4f> := [];
    for i := 0 to n as nat
      invariant ParseCount(ParseColor4f, c.data, start, i) == Ok(Parsed(colors, c.pos))
    {
      var x := ReadColor4f(c);
      if x.Err? {
        CountFailure(ParseColor4f, c.data, start, i + 1, n as nat);
        return Err(x.error);
      }
      colors := colors + [x.value];
    }
    return Ok(TextureVertices(normals, uvs, colors));
  }

  method ReadObjectData(c: Cursor) returns (r: Result<ObjectData>)
    modifies c
    ensures Matches(ParseObjectData(c.data, old(c.pos)), r, c.pos)
  {
    var mn :- c.ReadU32();
    var faces :- ReadFaces(c);
    var tv :- ReadTextureVertices(c);
    return Ok(ObjectData(mn, faces, tv));
  }

  method ReadVertexList(c: Cursor, n: nat) returns (r: Result<seq<Vertex>>)
    modifies c
    ensures Matches(ParseCount(ParseVertex, c.data, old(c.pos), n), r, c.pos)
  {
    var start := c.pos;
    var items: seq<Vertex> := [];
    for i := 0 to n
      invariant ParseCount(ParseVertex, c.data, start, i) == Ok(Parsed(items, c.pos))
    {
      var x := ReadVertex(c);
      if x.Err? {
        CountFailure(ParseVertex, c.data, start, i + 1, n);
        return Err(x.error);
      }
      items := items + [x.value];
    }
    return Ok(items);
  }

  method ReadCollisions(c: Cursor) returns (r: Result<Collisions>)
    modifies c
    ensures Matches(ParseCollisions(c.data, old(c.pos)), r, c.pos)
  {
    var n :- c.ReadU32();
    var vertices :- ReadVertexList(c, n as nat);
    var m :- c.ReadU32();
    var start := c.pos;
    var faces: seq<FaceNormal> := [];
    for i := 0 to m as nat
      invariant ParseCount(ParseFaceNormal, c.data, start, i) == Ok(Parsed(faces, c.pos))
    {
      var x := ReadFaceNormal(c);
      if x.Err? {
        CountFailure(ParseFaceNormal, c.data, start, i + 1, m as nat);
        return Err(x.error);
      }
      faces := faces + [x.value];
    }
    return Ok(Collisions(vertices, faces));
  }

  method ReadTag(c: Cursor) returns (r: Result<Tag>)
    modifies c
    ensures Matches(ParseTag(c.data, old(c.pos)), r, c.pos)
  {
    var c1 :- ReadIndexTriple(c);
    var f1 :- c.ReadU16();
    var c2 :- ReadIndexTriple(c);
    var f2 :- c.ReadU16();
    return Ok(Tag(c1, f1, c2, f2));
  }

  method ReadEIndices(c: Cursor) returns (r: Result<EIndices>)
    modifies c
    ensures Matches(ParseEIndices(c.data, old(c.pos)), r, c.pos)
  {
    var text :- c.ReadCString();
    var mn :- c.ReadU32();
    var n :- c.ReadU32();
    var indices :- ReadU16List(c, n as nat);
    if !IsUtf8(text) {
      return Err(InvalidUtf8);
    }
    return Ok(EIndices(text, mn, indices));
  }

  method ReadObject(c: Cursor) returns (r: Result<Object>)
    modifies c
    ensures Matches(ParseObject(c.data, old(c.pos)), r, c.pos)
  {
    var header :- ReadSectionHeader(c);
    var objectHeader :- ReadSectionHeader(c);
    var nv :- c.ReadU32();
    var vertices :- ReadVertexList(c, nv as nat);
    var nd :- c.ReadU32();
    var start := c.pos;
    var datas: seq<ObjectData> := [];
    for i := 0 to nd as nat
      invariant ParseCount(ParseObjectData, c.data, start, i) == Ok(Parsed(datas, c.pos))
    {
      var x := ReadObjectData(c);
      if x.Err? {
        CountFailure(ParseObjectData, c.data, start, i + 1, nd as nat);
        return Err(x.error);
      }
      datas := datas + [x.value];
    }
    var collisions :- ReadCollisions(c);
    var nt :- c.ReadU32();
    start := c.pos;
    var tags: seq<Tag> := [];
    for i := 0 to nt as nat
      invariant ParseCount(ParseTag, c.data, start, i) == Ok(Parsed(tags, c.pos))
    {
      var x := ReadTag(c);
      if x.Err? {
        CountFailure(ParseTag, c.data, start, i + 1, nt as nat);
        return Err(x.error);
      }
      tags := tags + [x.value];
    }
    var ni :- c.ReadU32();
    start := c.pos;
    var ind: seq<EIndices> := [];
    for i := 0 to ni as nat
      invariant ParseCount(ParseEIndices, c.data, start, i) == Ok(Parsed(ind, c.pos))
    {
      var x := ReadEIndices(c);
      if x.Err? {
        CountFailure(ParseEIndices, c.data, start, i + 1, ni as nat);
        return Err(x.error);
      }
      ind := ind + [x.value];
    }
    return Ok(Object(header.id, header.name, objectHeader.id, objectHeader.name, vertices, datas,
                     collisions, tags, ind));
  }

  method ReadGeometries(c: Cursor) returns (r: Result<Geometries>)
    modifies c
    ensures Matches(ParseGeometries(c.data, old(c.pos)), r, c.pos)
  {
    var header :- ReadSectionHeader(c);
    var n :- c.ReadU32();
    var start := c.pos;
    var objects: seq<Object> := [];
    for i := 0 to n as nat
      invariant ParseCount(ParseObject, c.data, start, i) == Ok(Parsed(objects, c.pos))
    {
      var x := ReadObject(c);
      if x.Err? {
        CountFailure(ParseObject, c.data, start, i + 1, n as nat);
        return Err(x.error);
      }
      objects := objects + [x.value];
    }
    return Ok(Geometries(header.id, objects));
  }

  // ---------------------------------------------------------------------
  // Portals and lights

  method ReadPortal(c: Cursor) returns (r: Result<Portal>)
    modifies c
    ensures Matches(ParsePortal(c.data, old(c.pos)), r, c.pos)
  {
    var header :- ReadSectionHeader(c);
    var n :- c.ReadU32();
    var coordinates :- ReadVertexList(c, n as nat);
    var room :- c.ReadU32();
    var opposite :- c.ReadU32();
    return Ok(Portal(header.id, header.name, coordinates, room, opposite));
  }

  method ReadPortals(c: Cursor) returns (r: Result<Portals>)
    modifies c
    ensures Matches(ParsePortals(c.data, old(c.pos)), r, c.pos)
  {
    var header :- ReadSectionHeader(c);
    var n :- c.ReadU32();
    var start := c.pos;
    var portals: seq<Portal> := [];
    for i := 0 to n as nat
      invariant ParseCount(ParsePortal, c.data, start, i) == Ok(Parsed(portals, c.pos))
    {
      var x := ReadPortal(c);
      if x.Err? {
        CountFailure(ParsePortal, c.data, start, i + 1, n as nat);
        return Err(x.error);
      }
      portals := portals + [x.value];
    }
    return Ok(Portals(header.id, header.name, portals));
  }

  method ReadLights(c: Cursor) returns (r: Result<Lights>)
    modifies c
    ensures Matches(ParseLights(c.data, old(c.pos)), r, c.pos)
  {
    var header :- ReadSectionHeader(c);
    var n :- c.ReadU32();
    return Ok(Lights(header.id, header.name, n));
  }

  // ---------------------------------------------------------------------
  // Dynamic objects

  method ReadKindDynamicParamStruct(c: Cursor) returns (r: Result<KindDynamicParamStruct>)
    modifies c
    ensures Matches(ParseKindDynamicParamStruct(c.data, old(c.pos)), r, c.pos)
  {
    var name :- c.ReadLatin1();
    var unknown1 :- ReadF32Array(c, 9);
    var unknown2 :- ReadU32Array(c, 2);
    return Ok(KindDynamicParamStruct(name, unknown1, unknown2));
  }

  method ReadKindDynamicParamStructs(c: Cursor, n: nat) returns (r: Result<seq<KindDynamicParamStruct>>)
    modifies c
    ensures Matches(ParseCount(ParseKindDynamicParamStruct, c.data, old(c.pos), n), r, c.pos)
  {
    var start := c.pos;
    var items: seq<KindDynamicParamStruct> := [];
    for i := 0 to n
      invariant ParseCount(ParseKindDynamicParamStruct, c.data, start, i) == Ok(Parsed(items, c.pos))
    {
      var x := ReadKindDynamicParamStruct(c);
      if x.Err? {
        CountFailure(ParseKindDynamicParamStruct, c.data, start, i + 1, n);
        return Err(x.error);
      }
      items := items + [x.value];
    }
    return Ok(items);
  }

  method ReadKindDynamicParams(c: Cursor) returns (r: Result<KindDynamicParams>)
    modifies c
    ensures Matches(ParseKindDynamicParams(c.data, old(c.pos)), r, c.pos)
  {
    var count :- c.ReadU32();
    if count > 0 {
      var structs :- ReadKindDynamicParamStructs(c, count as nat);
      return Ok(Struct(structs));
    } else {
      // A second count shadows the first.
      var flatCount :- c.ReadU32();
      var names :- ReadLatin1List(c, flatCount as nat);
      var unknown :- ReadF32Array(c, 4);
      return Ok(Flat(names, unknown));
    }
  }

  method ReadDynamicObjectKindCommon(c: Cursor) returns (r: Result<DynamicObjectKindCommon>)
    modifies c
    ensures Matches(ParseDynamicObjectKindCommon(c.data, old(c.pos)), r, c.pos)
  {
    var tm :- ReadTransformationMatrix(c);
    var name :- c.ReadLatin1();
    var unknown1 :- c.ReadU32();
    var sounds :- ReadLatin1List(c, 4);
    var c2d :- c.ReadLatin1();
    var c3d :- c.ReadLatin1();
    var action :- c.ReadLatin1();
    var category :- c.ReadLatin1();
    var penetration :- c.ReadLatin1();
    var name2 :- c.ReadLatin1();
    var category2 :- c.ReadLatin1();
    return Ok(DynamicObjectKindCommon(tm, name, unknown1, sounds, c2d, c3d, action, category,
                                      penetration, name2, category2));
  }

  method ReadDynamicKind(c: Cursor) returns (r: Result<DynamicObjectKind>)
    modifies c
    ensures Matches(ParseDynamicKind(c.data, old(c.pos)), r, c.pos)
  {
    var common :- ReadDynamicObjectKindCommon(c);
    var params :- ReadKindDynamicParams(c);
    return Ok(DynamicObjectKind.Dynamic(common, params));
  }

  method ReadAnimationKind(c: Cursor) returns (r: Result<DynamicObjectKind>)
    modifies c
    ensures Matches(ParseAnimationKind(c.data, old(c.pos)), r, c.pos)
  {
    var common :- ReadDynamicObjectKindCommon(c);
    var unknown2 :- c.ReadU32();
    var n :- c.ReadU32();
    var names :- ReadLatin1List(c, n as nat);
    var unknown3 :- ReadF32Array(c, 3);
    var unknown4 :- c.ReadU32();
    var name3 :- c.ReadLatin1();
    var name4 :- c.ReadLatin1();
    var animationType :- c.ReadLatin1();
    var direction :- ReadVec3f(c);
    var distance :- c.ReadF32();
    var velocity :- c.ReadF32();
    return Ok(DynamicObjectKind.Animation(common, unknown2, names, unknown3, unknown4, name3, name4,
                                          animationType, direction, distance, velocity));
  }

  method ReadRepeatableTouchplateKind(c: Cursor) returns (r: Result<DynamicObjectKind>)
    modifies c
    ensures Matches(ParseRepeatableTouchplateKind(c.data, old(c.pos)), r, c.pos)
  {
    var common :- ReadDynamicObjectKindCommon(c);
    var unknown1 :- c.ReadU32();
    var na :- c.ReadU32();
    var attachments :- ReadLatin1List(c, na as nat);
    var unknown2 :- ReadF32Array(c, 3);
    var nn :- c.ReadU32();
    var names :- ReadLatin1List(c, nn as nat);
    var name2 :- c.ReadLatin1();
    var name3 :- c.ReadLatin1();
    var animationType :- c.ReadLatin1();
    var direction :- ReadVec3f(c);
    var distance :- c.ReadF32();
    var velocity :- c.ReadF32();
    return Ok(DynamicObjectKind.RepeatableTouchplate(common, unknown1, attachments, unknown2, names,
                                                     name2, name3, animationType, direction,
                                                     distance, velocity));
  }

  method ReadGlassKind(c: Cursor) returns (r: Result<DynamicObjectKind>)
    modifies c
    ensures Matches(ParseGlassKind(c.data, old(c.pos)), r, c.pos)
  {
    var name :- c.ReadCString();
    if !IsUtf8(name) {
      return Err(InvalidUtf8);
    }
    return Ok(DynamicObjectKind.Glass(name));
  }

  method ReadOneTimeTouchplateKind(c: Cursor) returns (r: Result<DynamicObjectKind>)
    modifies c
    ensures Matches(ParseOneTimeTouchplateKind(c.data, old(c.pos)), r, c.pos)
  {
    var c2d :- c.ReadLatin1();
    var c3d :- c.ReadLatin1();
    var coordinates :- ReadVec6f(c);
    var n :- c.ReadU32();
    var attachments :- ReadLatin1List(c, n as nat);
    return Ok(DynamicObjectKind.OneTimeTouchplate(c2d, c3d, coordinates, attachments));
  }

  method ReadHaloEntry(c: Cursor) returns (r: Result<(string, Vec8f)>)
    modifies c
    ensures Matches(ParseHaloEntry(c.data, old(c.pos)), r, c.pos)
  {
    var name :- c.ReadLatin1();
    var v :- ReadVec8f(c);
    return Ok((name, v));
  }

  method ReadHaloKind(c: Cursor) returns (r: Result<DynamicObjectKind>)
    modifies c
    ensures Matches(ParseHaloKind(c.data, old(c.pos)), r, c.pos)
  {
    var count :- c.ReadU32();
    var start := c.pos;
    var halos: seq<(string, Vec8f)> := [];
    for i := 0 to count as nat
      invariant ParseCount(ParseHaloEntry, c.data, start, i) == Ok(Parsed(halos, c.pos))
    {
      var x := ReadHaloEntry(c);
      if x.Err? {
        CountFailure(ParseHaloEntry, c.data, start, i + 1, count as nat);
        return Err(x.error);
      }
      halos := halos + [x.value];
    }
    return Ok(DynamicObjectKind.Halo(halos));
  }

  method ReadStaticEffectKind(c: Cursor) returns (r: Result<DynamicObjectKind>)
    modifies c
    ensures Matches(ParseStaticEffectKind(c.data, old(c.pos)), r, c.pos)
  {
    return Ok(DynamicObjectKind.StaticEffect);
  }

  method ReadDynamicObjectKind(id: Id, c: Cursor) returns (r: Result<DynamicObjectKind>)
    modifies c
    ensures Matches(ParseDynamicObjectKind(id, c.data, old(c.pos)), r, c.pos)
  {
    match id
    case Dynamic => r := ReadDynamicKind(c);
    case Animation => r := ReadAnimationKind(c);
    case RepeatableTouchplate => r := ReadRepeatableTouchplateKind(c);
    case Glass => r := ReadGlassKind(c);
    case OneTimeTouchplate => r := ReadOneTimeTouchplateKind(c);
    case Halo => r := ReadHaloKind(c);
    case StaticEffect => r := ReadStaticEffectKind(c);
  }

  method ReadDynamicObject(c: Cursor) returns (r: Result<DynamicObject>)
    modifies c
    ensures Matches(ParseDynamicObject(c.data, old(c.pos)), r, c.pos)
  {
    var header :- ReadSectionHeader(c);
    var name :- c.ReadLatin1();
    var tm :- ReadTransformationMatrix(c);
    var id :- IdTryFrom(header.id);
    var kind :- ReadDynamicObjectKind(id, c);
    return Ok(DynamicObject(header.id, header.name, name, tm, kind));
  }

  method ReadDynamicObjects(c: Cursor) returns (r: Result<DynamicObjects>)
    modifies c
    ensures Matches(ParseDynamicObjects(c.data, old(c.pos)), r, c.pos)
  {
    var header :- ReadSectionHeader(c);
    var n :- c.ReadU32();
    var start := c.pos;
    var objects: seq<DynamicObject> := [];
    for i := 0 to n as nat
      invariant ParseCount(ParseDynamicObject, c.data, start, i) == Ok(Parsed(objects, c.pos))
    {
      var x := ReadDynamicObject(c);
      if x.Err? {
        CountFailure(ParseDynamicObject, c.data, start, i + 1, n as nat);
        return Err(x.error);
      }
      objects := objects + [x.value];
    }
    return Ok(DynamicObjects(header.id, header.name, objects));
  }

  // ---------------------------------------------------------------------
  // Rooms

  method ReadTransformationWithAabb(c: Cursor) returns (r: Result<TransformationWithAabb>)
    modifies c
    ensures Matches(ParseTransformationWithAabb(c.data, old(c.pos)), r, c.pos)
  {
    var tm :- ReadTransformationMatrix(c);
    var aabb :- ReadF32Array(c, 6);
    return Ok(TransformationWithAabb(tm, aabb));
  }

  method ReadShermanLevel(c: Cursor) returns (r: Result<ShermanLevel>)
    modifies c
    ensures Matches(ParseShermanLevel(c.data, old(c.pos)), r, c.pos)
  {
    var name :- c.ReadLatin1();
    var n :- c.ReadU32();
    var start := c.pos;
    var tms: seq<TransformationWithAabb> := [];
    for i := 0 to n as nat
      invariant ParseCount(ParseTransformationWithAabb, c.data, start, i) == Ok(Parsed(tms, c.pos))
    {
      var x := ReadTransformationWithAabb(c);
      if x.Err? {
        CountFailure(ParseTransformationWithAabb, c.data, start, i + 1, n as nat);
        return Err(x.error);
      }
      tms := tms + [x.value];
    }
    var m :- c.ReadU32();
    var unknown1 :- ReadF32List(c, m as nat);
    var unknown2 :- c.ReadU8();
    return Ok(ShermanLevel(name, tms, unknown1, unknown2));
  }

  method ReadLevelHeight(c: Cursor) returns (r: Result<LevelHeight>)
    modifies c
    ensures Matches(ParseLevelHeight(c.data, old(c.pos)), r, c.pos)
  {
    var height :- c.ReadF32();
    var unknown :- c.ReadF32();
    return Ok(LevelHeight(height, unknown));
  }

  method ReadRoomOptionals(c: Cursor, unknown1: byte, unknown3: byte)
    returns (r: Result<(Option<byte>, Option<seq<F32>>, Option<seq<F32>>)>)
    modifies c
    ensures Matches(ParseRoomOptionals(unknown1, unknown3, c.data, old(c.pos)), r, c.pos)
  {
    var unknown4: Option<byte> := None;
    if unknown1 == 0 {
      var b :- c.ReadU8();
      unknown4 := Some(b);
    }

    var unknown5: Option<seq<F32>> := None;
    if unknown3 == 1 {
      var a :- ReadF32Array(c, 6);
      unknown5 := Some(a);
    }

    var unknown6: Option<seq<F32>> := None;
    if unknown4 == Some(1) {
      var a :- ReadF32Array(c, 6);
      unknown6 := Some(a);
    }
    return Ok((unknown4, unknown5, unknown6));
  }

  method ReadRoom(c: Cursor) returns (r: Result<Room>)
    modifies c
    ensures Matches(ParseRoom(c.data, old(c.pos)), r, c.pos)
  {
    var header :- ReadSectionHeaderShort(c);
    var unknown1 :- c.ReadU8();
    var unknown2 :- c.ReadU8();
    var unknown3 :- c.ReadU8();
    var opt :- ReadRoomOptionals(c, unknown1, unknown3);

    var n :- c.ReadU32();
    var start := c.pos;
    var levels: seq<ShermanLevel> := [];
    for i := 0 to n as nat
      invariant ParseCount(ParseShermanLevel, c.data, start, i) == Ok(Parsed(levels, c.pos))
    {
      var x := ReadShermanLevel(c);
      if x.Err? {
        CountFailure(ParseShermanLevel, c.data, start, i + 1, n as nat);
        return Err(x.error);
      }
      levels := levels + [x.value];
    }

    var m :- c.ReadU32();
    var unknown7 :- c.ReadF32();
    start := c.pos;
    var heights: seq<LevelHeight> := [];
    for i := 0 to m as nat
      invariant ParseCount(ParseLevelHeight, c.data, start, i) == Ok(Parsed(heights, c.pos))
    {
      var x := ReadLevelHeight(c);
      if x.Err? {
        CountFailure(ParseLevelHeight, c.data, start, i + 1, m as nat);
        return Err(x.error);
      }
      heights := heights + [x.value];
    }

    return Ok(Room(header.id, header.name, unknown1, unknown2, unknown3, opt.0, opt.1, opt.2,
                   levels, unknown7, heights));
  }

  method ReadRooms(c: Cursor) returns (r: Result<Rooms>)
    modifies c
    ensures Matches(ParseRooms(c.data, old(c.pos)), r, c.pos)
  {
    var header :- ReadSectionHeader(c);
    var n :- c.ReadU32();
    var start := c.pos;
    var rooms: seq<Room> := [];
    for i := 0 to n as nat
      invariant ParseCount(ParseRoom, c.data, start, i) == Ok(Parsed(rooms, c.pos))
    {
      var x := ReadRoom(c);
      if x.Err? {
        CountFailure(ParseRoom, c.data, start, i + 1, n as nat);
        return Err(x.error);
      }
      rooms := rooms + [x.value];
    }
    return Ok(Rooms(header.id, header.name, rooms));
  }

  // ---------------------------------------------------------------------
  // Transitions and planning levels

  method ReadTransitionCoords(c: Cursor) returns (r: Result<TransitionCoords>)
    modifies c
    ensures Matches(ParseTransitionCoords(c.data, old(c.pos)), r, c.pos)
  {
    var p1 :- ReadVec3f(c);
    var p2 :- ReadVec3f(c);
    return Ok(TransitionCoords(p1, p2));
  }

  method ReadTransition(c: Cursor) returns (r: Result<Transition>)
    modifies c
    ensures Matches(ParseTransition(c.data, old(c.pos)), r, c.pos)
  {
    var name :- c.ReadLatin1();
    var coords :- ReadTransitionCoords(c);
    return Ok(Transition(name, coords));
  }

  method ReadTransitions(c: Cursor) returns (r: Result<Transitions>)
    modifies c
    ensures Matches(ParseTransitions(c.data, old(c.pos)), r, c.pos)
  {
    var header :- ReadSectionHeader(c);
    var n :- c.ReadU32();
    var start := c.pos;
    var transitions: seq<Transition> := [];
    for i := 0 to n as nat
      invariant ParseCount(ParseTransition, c.data, start, i) == Ok(Parsed(transitions, c.pos))
    {
      var x := ReadTransition(c);
      if x.Err? {
        CountFailure(ParseTransition, c.data, start, i + 1, n as nat);
        return Err(x.error);
      }
      transitions := transitions + [x.value];
    }
    return Ok(Transitions(header.id, header.name, transitions));
  }

  method ReadPlanningLevel(c: Cursor) returns (r: Result<PlanningLevel>)
    modifies c
    ensures Matches(ParsePlanningLevel(c.data, old(c.pos)), r, c.pos)
  {
    var number :- c.ReadF32();
    var height :- c.ReadF32();
    var n :- c.ReadU32();
    var names :- ReadLatin1List(c, n as nat);
    return Ok(PlanningLevel(number, height, names));
  }

  method ReadPlanningLevels(c: Cursor) returns (r: Result<PlanningLevels>)
    modifies c
    ensures Matches(ParsePlanningLevels(c.data, old(c.pos)), r, c.pos)
  {
    var header :- ReadSectionHeader(c);
    var n :- c.ReadU32();
    var start := c.pos;
    var levels: seq<PlanningLevel> := [];
    for i := 0 to n as nat
      invariant ParseCount(ParsePlanningLevel, c.data, start, i) == Ok(Parsed(levels, c.pos))
    {
      var x := ReadPlanningLevel(c);
      if x.Err? {
        CountFailure(ParsePlanningLevel, c.data, start, i + 1, n as nat);
        return Err(x.error);
      }
      levels := levels + [x.value];
    }
    return Ok(PlanningLevels(header.id, header.name, levels));
  }

  // ---------------------------------------------------------------------
  // The whole file

  method ReadMapSections(c: Cursor) returns (r: Result<Map>)
    modifies c
    ensures Matches(ParseMap(c.data, old(c.pos)), r, c.pos)
  {
    var header :- ReadMapHeader(c);
    var materials :- ReadMaterials(c);
    var geometries :- ReadGeometries(c);
    var portals :- ReadPortals(c);
    var lights :- ReadLights(c);
    var dynamicObjects :- ReadDynamicObjects(c);
    var rooms :- ReadRooms(c);
    var transitions :- ReadTransitions(c);
    var planningLevels :- ReadPlanningLevels(c);
    var end :- c.ReadCString();
    if end != EndMarker {
      return Err(MissingEnd);
    }
    return Ok(Map(header, materials, geometries, portals, lights, dynamicObjects, rooms,
                  transitions, planningLevels));
  }

  /** Decodes an in-memory MAP file: the result is exactly `DecodeMap`. */
  method ReadMap(data: seq<byte>) returns (r: Result<Map>)
    ensures r == DecodeMap(data)
  {
    var c := new Cursor(data);
    r := ReadMapSections(c);
  }
}
