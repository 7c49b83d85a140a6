/** The decoded MAP level: an owned tree that mirrors the file's nesting.
    Lists that the file prefixes with a count are sequences here, and the
    count itself is dropped. Fixed-size arrays of the source (`[f32; 6]`
    and the like) are sequences whose length the grammar lemmas state. */
module MapTypes {
  import opened Bytes

  /** The (id, name) pair that precedes most records. */
  datatype SectionHeader = SectionHeader(id: u32, name: string)

  datatype Map = Map(
    header: MapHeader,
    materials: Materials,
    geometries: Geometries,
    portals: Portals,
    lights: Lights,
    dynamicObjects: DynamicObjects,
    rooms: Rooms,
    transitions: Transitions,
    planningLevels: PlanningLevels)

  /** The creation timestamp that follows the magic. */
  datatype MapHeader = MapHeader(timestamp: u32)

  datatype Materials = Materials(id: u32, materials: seq<Material>)

  datatype Material = Material(
    id: u32,
    filename: string,
    name: string,
    opacity: F32,
    emissiveStrength: u32,
    addressMode: TextureAddressMode,
    ambient: Color4f,
    diffuse: Color4f,
    specular: Color4f,
    specularLevel: F32,
    twoSided: bool)

  datatype TextureAddressMode = Opaque | Wrap | Clamp

  datatype Color4f = Color4f(r: F32, g: F32, b: F32, a: F32)

  datatype Geometries = Geometries(id: u32, objects: seq<Object>)

  datatype Object = Object(
    id: u32,
    name: string,
    objectId: u32,
    objectName: string,
    vertices: seq<Vertex>,
    objectDatas: seq<ObjectData>,
    collisions: Collisions,
    tags: seq<Tag>,
    ind: seq<EIndices>)

  datatype Vertex = Vertex(x: F32, y: F32, z: F32)

  datatype ObjectData = ObjectData(mn: u32, faces: Faces, textureVertices: TextureVertices)

  type IndexTriple = (u16, u16, u16)

  /** Three parallel arrays, one entry per face. */
  datatype Faces = Faces(
    normals: seq<FaceNormal>,
    faceIndices: seq<IndexTriple>,
    textureIndices: seq<IndexTriple>)

  datatype FaceNormal = FaceNormal(x: F32, y: F32, z: F32, distanceOriginToFace: F32)

  /** Three parallel arrays, one entry per texture vertex. */
  datatype TextureVertices = TextureVertices(
    normals: seq<NormalCoord>,
    uvCoords: seq<UvCoord>,
    faceColors: seq<Color4f>)

  datatype NormalCoord = NormalCoord(x: F32, y: F32, z: F32)

  datatype UvCoord = UvCoord(u: F32, v: F32)

  datatype Collisions = Collisions(vertices: seq<Vertex>, faces: seq<FaceNormal>)

  datatype Tag = Tag(coord1: IndexTriple, faceIndex1: u16, coord2: IndexTriple, faceIndex2: u16)

  /** `text` holds the bytes of a Rust `String`: well-formed UTF-8. */
  datatype EIndices = EIndices(text: seq<byte>, mn: u32, indices: seq<u16>)

  datatype Portals = Portals(id: u32, name: string, portals: seq<Portal>)

  datatype Portal = Portal(
    id: u32,
    name: string,
    coordinates: seq<Vertex>,
    room: u32,
    oppositeRoom: u32)

  /** Only the count is stored; no light records follow it. */
  datatype Lights = Lights(id: u32, name: string, lightCount: u32)

  datatype DynamicObjects = DynamicObjects(id: u32, name: string, dynamicObjects: seq<DynamicObject>)

  datatype DynamicObject = DynamicObject(
    sectionId: u32,
    sectionName: string,
    name: string,
    tm: TransformationMatrix,
    kind: DynamicObjectKind)

  /** The section ids that select a dynamic-object grammar. */
  datatype Id = Dynamic | Animation | RepeatableTouchplate | Glass | OneTimeTouchplate | Halo | StaticEffect

  datatype TransformationMatrix = TransformationMatrix(
    xAxis: Vec3f, yAxis: Vec3f, zAxis: Vec3f, position: Vec3f)

  datatype Vec3f = Vec3f(x: F32, y: F32, z: F32)

  datatype Vec6f = Vec6f(x1: F32, y1: F32, z1: F32, x2: F32, y2: F32, z2: F32)

  datatype Vec8f = Vec8f(x1: F32, y1: F32, z1: F32, x2: F32, y2: F32, z2: F32, x3: F32, y3: F32)

  /** The parameters of a `Dynamic` object: a list of structs when the first
      count is positive, otherwise names plus four words. */
  datatype KindDynamicParams =
    | Struct(structs: seq<KindDynamicParamStruct>)
    | Flat(names: seq<string>, unknown: seq<F32>)

  datatype KindDynamicParamStruct = KindDynamicParamStruct(
    name: string, unknown1: seq<F32>, unknown2: seq<u32>)

  /** The block shared by the Dynamic, Animation and RepeatableTouchplate
      grammars. */
  datatype DynamicObjectKindCommon = DynamicObjectKindCommon(
    tm: TransformationMatrix,
    name: string,
    unknown1: u32,
    sounds: seq<string>,
    collisionType2d: string,
    collisionType3d: string,
    destructionAction: string,
    destructionCategory: string,
    penetrationType: string,
    name2: string,
    destructionCategory2: string)

  /** One payload shape per `Id`. The RepeatableTouchplate fields called
      unknown1 and unknown2 in the source are `adtUnknown1` and
      `adtUnknown2` here, since `unknown2` already names a field of
      another type in Animation. */
  datatype DynamicObjectKind =
    | Dynamic(common: DynamicObjectKindCommon, params: KindDynamicParams)
    | Animation(
        common: DynamicObjectKindCommon,
        unknown2: u32,
        names: seq<string>,
        unknown3: seq<F32>,
        unknown4: u32,
        name3: string,
        name4: string,
        animationType: string,
        direction: Vec3f,
        distance: F32,
        velocity: F32)
    | RepeatableTouchplate(
        common: DynamicObjectKindCommon,
        adtUnknown1: u32,
        attachments: seq<string>,
        adtUnknown2: seq<F32>,
        names: seq<string>,
        name2: string,
        name3: string,
        animationType: string,
        direction: Vec3f,
        distance: F32,
        velocity: F32)
    | Glass(name: seq<byte>)
    | OneTimeTouchplate(
        collisionType2d: string,
        collisionType3d: string,
        coordinates: Vec6f,
        attachments: seq<string>)
    | Halo(halos: seq<(string, Vec8f)>)
    | StaticEffect

  datatype Rooms = Rooms(sectionId: u32, sectionName: string, rooms: seq<Room>)

  /** A room's optional fields depend on earlier values: `unknown4` on
      `unknown1`, `unknown5` on `unknown3`, `unknown6` on `unknown4`. */
  datatype Room = Room(
    sectionId: u32,
    sectionName: string,
    unknown1: byte,
    unknown2: byte,
    unknown3: byte,
    unknown4: Option<byte>,
    unknown5: Option<seq<F32>>,
    unknown6: Option<seq<F32>>,
    shermanLevels: seq<ShermanLevel>,
    unknown7: F32,
    levelHeights: seq<LevelHeight>)

  datatype ShermanLevel = ShermanLevel(
    name: string,
    tmWithAabb: seq<TransformationWithAabb>,
    unknown1: seq<F32>,
    unknown2: byte)

  datatype TransformationWithAabb = TransformationWithAabb(tm: TransformationMatrix, aabb: seq<F32>)

  datatype LevelHeight = LevelHeight(height: F32, unknown: F32)

  datatype Transitions = Transitions(sectionId: u32, sectionName: string, transitions: seq<Transition>)

  datatype Transition = Transition(name: string, coords: TransitionCoords)

  datatype TransitionCoords = TransitionCoords(p1: Vec3f, p2: Vec3f)

  datatype PlanningLevels = PlanningLevels(sectionId: u32, sectionName: string, levels: seq<PlanningLevel>)

  datatype PlanningLevel = PlanningLevel(levelNumber: F32, floorHeight: F32, roomNames: seq<string>)
}
