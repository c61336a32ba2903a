/** The badge cube as a declarative scene: three lights and six faces, every
    face carrying the same translucent material and one kind of content.
    Rotations of the faces and the per-frame spin are not described here.
 */
module CubeScene {

  /** Gap between neighbouring faces. */
  const GapSize: real := 0.005

  /** Distance of every face from the centre of the cube. */
  const Offset: real := 1.5 + GapSize / 2.0

  /** Side length of the square plane of a face. */
  const FaceSize: real := 2.98

  datatype Vec3 = Vec3(x: real, y: real, z: real)

  /** The meshPhysicalMaterial of a face. */
  datatype Material = Material(
    color: string,
    transparent: bool,
    opacity: real,
    metalness: real,
    roughness: real,
    clearcoat: real,
    clearcoatRoughness: real,
    reflectivity: real,
    envMapIntensity: real)

  datatype Font = GeistBold | GeistRegular | GeistMonoRegular
  datatype AnchorX = Left | CenterX
  datatype AnchorY = Top | Bottom | Middle

  /** A white text node. */
  datatype Label = Label(text: string, position: Vec3, fontSize: real, font: Font, anchorX: AnchorX, anchorY: AnchorY)

  /** What a face shows. The two logos are opaque external assets. */
  datatype Content =
    | NameAndCompany(origin: Vec3, name: Label, company: Label)
    | Caption(first: Label, second: Label)
    | NextJsConfLogo
    | VercelLogo
    | DateText(month: Label, year: Label)

  datatype Face = Face(position: Vec3, size: real, material: Material, content: Content)

  datatype Light = Ambient(intensity: real) | PointLight(position: Vec3, intensity: real)

  datatype Cube = Cube(lights: seq<Light>, faces: seq<Face>)

  /** The properties the Cube component receives (rotationSpeed only drives the spin). */
  datatype CubeProps = CubeProps(
    name: string,
    company: string,
    color: string,
    glossiness: real,
    blur: real,
    lightIntensity: real,
    rotationSpeed: real)

  /** The Scene component: an environment preset, the cube, and orbit controls without zoom. */
  datatype SceneGraph = SceneGraph(environmentPreset: string, cube: Cube, zoomEnabled: bool)

  // ---------------------------------------------------------------------
  // Components
  // ---------------------------------------------------------------------

  function FaceMaterial(color: string, glossiness: real, blur: real): Material
  {
    Material(
      color := color,
      transparent := true,
      opacity := 0.8,
      metalness := glossiness * 0.5,
      roughness := blur,
      clearcoat := glossiness,
      clearcoatRoughness := 0.1,
      reflectivity := 1.0,
      envMapIntensity := glossiness)
  }

  /** CubeFace: a plane with the shared material, at `position`, holding `content`. */
  function CubeFace(position: Vec3, color: string, glossiness: real, blur: real, content: Content): Face
  {
    Face(position, FaceSize, FaceMaterial(color, glossiness, blur), content)
  }

  /** Font size of the name: smaller once the name is longer than 20 characters. */
  function NameFontSize(name: string): real
  {
    if |name| > 20 then 0.25 else 0.35
  }

  /** Font size of the company: smaller once it is longer than 30 characters. */
  function CompanyFontSize(company: string): real
  {
    if |company| > 30 then 0.12 else 0.18
  }

  function NameCard(name: string, company: string): Content
  {
    NameAndCompany(
      Vec3(-1.3, -1.3, 0.02),
      Label(name, Vec3(0.0, 1.1, 0.0), NameFontSize(name), GeistBold, Left, Bottom),
      Label(company, Vec3(0.0, 0.6, 0.0), CompanyFontSize(company), GeistRegular, Left, Top))
  }

  const GoingToCaption: Content :=
    Caption(
      Label("I'm going to", Vec3(-1.3, 1.1, 0.02), 0.3, GeistRegular, Left, Top),
      Label("Next.js Conf", Vec3(-1.3, 0.6, 0.02), 0.3, GeistBold, Left, Top))

  const ConfDate: Content :=
    DateText(
      Label("Oct 24", Vec3(0.0, 0.15, 0.01), 0.25, GeistMonoRegular, CenterX, Middle),
      Label("2024", Vec3(0.0, -0.15, 0.01), 0.25, GeistMonoRegular, CenterX, Middle))

  /** The Cube component: lights, then the front, back, right, left, top and bottom faces. */
  function BuildCube(p: CubeProps): Cube
  {
    var face := (position: Vec3, content: Content) => CubeFace(position, p.color, p.glossiness, p.blur, content);
    Cube(
      [ Ambient(p.lightIntensity),
        PointLight(Vec3(10.0, 10.0, 10.0), p.lightIntensity),
        PointLight(Vec3(-10.0, -10.0, -10.0), p.lightIntensity) ],
      [ face(Vec3(0.0, 0.0, Offset), NameCard(p.name, p.company)),
        face(Vec3(0.0, 0.0, -Offset), GoingToCaption),
        face(Vec3(Offset, 0.0, 0.0), NextJsConfLogo),
        face(Vec3(-Offset, 0.0, 0.0), VercelLogo),
        face(Vec3(0.0, Offset, 0.0), ConfDate),
        face(Vec3(0.0, -Offset, 0.0), ConfDate) ])
  }

  function BuildScene(p: CubeProps, environment: string): SceneGraph
  {
    SceneGraph(environment, BuildCube(p), false)
  }

  // ---------------------------------------------------------------------
  // Layout rules
  // ---------------------------------------------------------------------

  function Abs(r: real): real { if r < 0.0 then -r else r }

  /** `v` is the centre of a face of the cube: one coordinate is at distance
      Offset from the centre, the other two are zero. */
  predicate OnAxis(v: Vec3)
  {
    || (Abs(v.x) == Offset && v.y == 0.0 && v.z == 0.0)
    || (v.x == 0.0 && Abs(v.y) == Offset && v.z == 0.0)
    || (v.x == 0.0 && v.y == 0.0 && Abs(v.z) == Offset)
  }

  function Neg(v: Vec3): Vec3 { Vec3(-v.x, -v.y, -v.z) }

  /** The offset is half the cube plus half the gap, so a face plane (2.98 wide)
      stays inside the cube it bounds and the faces do not touch. */
  lemma OffsetValue()
    ensures Offset == 1.5025
    ensures FaceSize / 2.0 < Offset
  {
  }

  /** The name is drawn at 0.35 up to 20 characters and at 0.25 beyond; the
      company at 0.18 up to 30 characters and at 0.12 beyond. */
  lemma FontSizeThresholds(name: string, company: string)
    ensures NameFontSize(name) == 0.35 <==> |name| <= 20
    ensures NameFontSize(name) == 0.25 <==> |name| > 20
    ensures CompanyFontSize(company) == 0.18 <==> |company| <= 30
    ensures CompanyFontSize(company) == 0.12 <==> |company| > 30
  {
  }

  /** A longer text never gets a larger font. */
  lemma FontSizeMonotone(a: string, b: string)
    requires |a| <= |b|
    ensures NameFontSize(b) <= NameFontSize(a)
    ensures CompanyFontSize(b) <= CompanyFontSize(a)
  {
  }

  /** There are six faces, one centred on each of the six axis directions at
      distance Offset, each opposite another, no two in the same place. */
  lemma CubeLayout(p: CubeProps)
    ensures |BuildCube(p).faces| == 6
    ensures forall i :: 0 <= i < 6 ==> OnAxis(BuildCube(p).faces[i].position)
    ensures forall i, j :: 0 <= i < j < 6 ==> BuildCube(p).faces[i].position != BuildCube(p).faces[j].position
    ensures forall i :: 0 <= i < 6 ==> exists j :: 0 <= j < 6 && BuildCube(p).faces[j].position == Neg(BuildCube(p).faces[i].position)
  {
    var f := BuildCube(p).faces;
    assert f[0].position == Neg(f[1].position) && f[1].position == Neg(f[0].position);
    assert f[2].position == Neg(f[3].position) && f[3].position == Neg(f[2].position);
    assert f[4].position == Neg(f[5].position) && f[5].position == Neg(f[4].position);
  }

  /** Every face has the same material, derived from colour, glossiness and
      blur alone: metalness is half the glossiness, roughness is the blur,
      clearcoat and environment-map intensity are the glossiness, it is
      transparent at 80% opacity, with clearcoat roughness 0.1 and
      reflectivity 1, on a plane 2.98 wide. */
  lemma SharedMaterial(p: CubeProps)
    ensures forall i :: 0 <= i < |BuildCube(p).faces| ==> BuildCube(p).faces[i].material.color == p.color
    ensures forall i :: 0 <= i < |BuildCube(p).faces| ==> BuildCube(p).faces[i].material.metalness == p.glossiness * 0.5
    ensures forall i :: 0 <= i < |BuildCube(p).faces| ==> BuildCube(p).faces[i].material.roughness == p.blur
    ensures forall i :: 0 <= i < |BuildCube(p).faces| ==> BuildCube(p).faces[i].material.clearcoat == p.glossiness
    ensures forall i :: 0 <= i < |BuildCube(p).faces| ==> BuildCube(p).faces[i].material.envMapIntensity == p.glossiness
    ensures forall i :: 0 <= i < |BuildCube(p).faces| ==> BuildCube(p).faces[i].material.opacity == 0.8
    ensures forall i :: 0 <= i < |BuildCube(p).faces| ==> BuildCube(p).faces[i].material.transparent
    ensures forall i :: 0 <= i < |BuildCube(p).faces| ==> BuildCube(p).faces[i].material.clearcoatRoughness == 0.1
    ensures forall i :: 0 <= i < |BuildCube(p).faces| ==> BuildCube(p).faces[i].material.reflectivity == 1.0
    ensures forall i :: 0 <= i < |BuildCube(p).faces| ==> BuildCube(p).faces[i].size == FaceSize
    ensures forall i, j :: 0 <= i < j < |BuildCube(p).faces| ==> BuildCube(p).faces[i].material == BuildCube(p).faces[j].material
  {
  }

  /** Which content sits on which face: the name card in front, the captions
      at the back, the Next.js Conf logo at +x, the Vercel logo at -x and the
      date on top and bottom. */
  lemma FaceContents(p: CubeProps)
    ensures |BuildCube(p).faces| == 6
    ensures BuildCube(p).faces[0].position.z == Offset
    ensures BuildCube(p).faces[0].content.NameAndCompany?
    ensures BuildCube(p).faces[0].content.name.text == p.name
    ensures BuildCube(p).faces[0].content.name.fontSize == NameFontSize(p.name)
    ensures BuildCube(p).faces[0].content.company.text == p.company
    ensures BuildCube(p).faces[0].content.company.fontSize == CompanyFontSize(p.company)
    ensures BuildCube(p).faces[1].position.z == -Offset
    ensures BuildCube(p).faces[1].content == GoingToCaption
    ensures GoingToCaption.first.text == "I'm going to" && GoingToCaption.second.text == "Next.js Conf"
    ensures BuildCube(p).faces[2].position.x == Offset && BuildCube(p).faces[2].content == NextJsConfLogo
    ensures BuildCube(p).faces[3].position.x == -Offset && BuildCube(p).faces[3].content == VercelLogo
    ensures BuildCube(p).faces[4].position.y == Offset && BuildCube(p).faces[4].content == ConfDate
    ensures BuildCube(p).faces[5].position.y == -Offset && BuildCube(p).faces[5].content == ConfDate
    ensures ConfDate.month.text == "Oct 24" && ConfDate.year.text == "2024"
  {
  }

  /** All three lights shine with the chosen light intensity. */
  lemma LightsFollowIntensity(p: CubeProps)
    ensures |BuildCube(p).lights| == 3
    ensures forall i :: 0 <= i < 3 ==> BuildCube(p).lights[i].intensity == p.lightIntensity
  {
  }

  /** The name and company only ever reach the front face: every other face,
      and all the lights, are the same whatever the text. */
  lemma TextOnlyOnFront(p: CubeProps, name: string, company: string)
    ensures BuildCube(p.(name := name, company := company)).faces[1..] == BuildCube(p).faces[1..]
    ensures BuildCube(p.(name := name, company := company)).lights == BuildCube(p).lights
    ensures BuildCube(p.(name := name, company := company)).faces[0].material == BuildCube(p).faces[0].material
  {
  }
}
