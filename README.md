# Conference badge cube generator — Dafny model

The component `CustomizableCubeGenerator` lets a visitor personalise a
virtual conference badge: a translucent cube whose front shows their name
and company, whose back says "I'm going to / Next.js Conf", whose sides show
two logos and whose top and bottom show the date. The visitor picks the
colour, glossiness, blur, light intensity, lighting environment and spin
speed, and can copy a share link. A share link seeds the initial state with
name, company, colour, glossiness, blur and light intensity; right after
the page mounts, the name input takes focus and its focus handler clears
the name, so of these only the name does not survive opening the link.

This project models the logic of that component:

- `profanity.dfy` (module `Profanity`): `filterProfanity` and its denylist.
  Text is split on the single space character, empty tokens included, each
  token whose ASCII-lowercased form is `badword1`, `badword2` or `badword3`
  becomes as many `*` as it has characters, and the tokens are joined back
  with single spaces.
- `cube_scene.dfy` (module `CubeScene`): the `CubeFace`, `Cube` and `Scene`
  components as a pure function from the cube's properties to a scene value
  with three lights and six faces, all sharing one material record, with the
  font sizes of name and company chosen by length thresholds.
- `link_codec.dfy` (module `LinkCodec`): the share-link parameters as an
  ordered list of (key, value) pairs. Encoding emits six keys in a fixed
  order. Decoding takes the first value of a key and falls back to a default
  when the key is missing or its value is empty (JavaScript `||`).
- `generator.dfy` (module `Generator`): the component's `useState` hooks as
  the fields of class `CustomizableCubeGenerator`, seeded from a link by its
  constructor, with one method per event handler and one for the mount
  effect. Each method's contract gives the whole new state as the old state
  with one field replaced. The handlers of the controls panel require the
  controls to be shown, since only then are those inputs on the page.

Numbers in a link are the text produced by `toString` and read by
`parseFloat`. Both are parameters of the model (`toText`, `parseFloat`), so
numeric link values are opaque strings. The page address that
`window.location` supplies is a parameter of `GenerateShareLink`.

Some behaviour one might expect of such a component is not in the code, and the model does not add it:

- The filter splits on `' '` only and keeps the empty tokens of repeated
  spaces. It does not split on general whitespace.
- Nothing clamps or validates values decoded from a link. Malformed numbers
  get no fallback. Text length is not bounded.
- Only the sliders and the environment selector keep values in range. They
  appear as preconditions of their handlers. `Valid()` covers only the
  environment and the rotation speed, which never come from a link. It is an
  invariant that the constructor establishes and every method preserves; no
  other contract depends on it.
- Numbers round-trip through a link only if `parseFloat` reads back what
  `toString` wrote. `ShareThenOpen` and `ShareThenLoad` take this as a
  hypothesis.

## Model

| member | source | states |
|---|---|---|
| `Profanity.Split` | src/components/customizable-cube-generator.jsx:231 | splitting on ' ' yields one token more than there are spaces, and no token contains a space |
| `Profanity.JoinSplit` | src/components/customizable-cube-generator.jsx:231-234 | joining the tokens of a split with ' ' gives back the original text |
| `Profanity.SplitJoin` | src/components/customizable-cube-generator.jsx:231-234 | splitting a join of a non-empty list of space-free tokens gives back exactly those tokens |
| `Profanity.Profanities` | src/components/customizable-cube-generator.jsx:228 | the denylist `badword1`, `badword2`, `badword3`; `StarsNotProfane` and `FilterDenylisted` state how the filter treats its entries |
| `Profanity.LowerChar` | src/components/customizable-cube-generator.jsx:233 | `toLowerCase` on one ASCII character; its effect on tokens is stated through `MaskedIffProfane` |
| `Profanity.Lower` | src/components/customizable-cube-generator.jsx:233 | `word.toLowerCase()` character by character; used by the denylist test whose properties `MaskedIffProfane` and `StarsNotProfane` state |
| `Profanity.IsProfane` | src/components/customizable-cube-generator.jsx:233 | `profanities.includes(word.toLowerCase())`; `MaskedIffProfane` and `StarsNotProfane` state it, and the `ChangeName` and `ChangeCompany` contracts use it |
| `Profanity.Stars` | src/components/customizable-cube-generator.jsx:233 | `'*'.repeat(n)`; `StarsNotProfane` shows no such run is denylisted |
| `Profanity.MaskWord` | src/components/customizable-cube-generator.jsx:233 | the per-token mapping; `MaskedIffProfane` and `MaskWordIdempotent` state its properties |
| `Profanity.MaskAll` | src/components/customizable-cube-generator.jsx:232-234 | `words.map(...)` with the per-token mapping; `FilterTokens` states the tokens it yields |
| `Profanity.Join` | src/components/customizable-cube-generator.jsx:234 | `join(' ')`; `JoinSplit` and `SplitJoin` show it inverts `Split` |
| `Profanity.FilterProfanity` | src/components/customizable-cube-generator.jsx:230-235 | `filterProfanity` as split, map and join; `FilterTokens`, `FilterMasksInPlace`, `FilterUnchangedIffClean`, `FilterLeavesNoProfanity` and `FilterIdempotent` state its properties |
| `Profanity.FilterSingleWord` | src/components/customizable-cube-generator.jsx:230-235 | a text without spaces is filtered as one token |
| `Profanity.StarsNotProfane` | src/components/customizable-cube-generator.jsx:228 | no run of '*' is on the denylist |
| `Profanity.MaskedIffProfane` | src/components/customizable-cube-generator.jsx:233 | a token is changed exactly when its lowercase form is on the denylist, and then it becomes '*' repeated to its length; its length never changes |
| `Profanity.MaskWordIdempotent` | src/components/customizable-cube-generator.jsx:233 | masking a token twice is the same as masking it once |
| `Profanity.FilterTokens` | src/components/customizable-cube-generator.jsx:230-235 | the tokens of the filtered text are the input's tokens, each masked by the denylist rule |
| `Profanity.FilterMasksInPlace` | src/components/customizable-cube-generator.jsx:233-234 | the filter keeps length, every output character is the input character at that position or '*', and spaces stay exactly where they were |
| `Profanity.FilterUnchangedIffClean` | src/components/customizable-cube-generator.jsx:230-235 | the filter returns its input unchanged if and only if no token of the input is on the denylist |
| `Profanity.FilterLeavesNoProfanity` | src/components/customizable-cube-generator.jsx:228-235 | no token of the filtered text is on the denylist |
| `Profanity.FilterIdempotent` | src/components/customizable-cube-generator.jsx:228-235 | filtering twice equals filtering once |
| `Profanity.FilterDenylisted` | src/components/customizable-cube-generator.jsx:228-235 | a denylisted word typed on its own becomes '*' of the same length, which differs from the word |
| `Profanity.FilterExample` | src/components/customizable-cube-generator.jsx:230-235 | "hello BadWord1  world" filters to "hello ********  world": case is ignored, and the double space and the neighbouring words are kept |
| `CubeScene.FaceMaterial` | src/components/customizable-cube-generator.jsx:27-37 | the `meshPhysicalMaterial` of a face; `SharedMaterial` states its values on every face |
| `CubeScene.CubeFace` | src/components/customizable-cube-generator.jsx:23-42 | a face: position, the 2.98 plane, the material and its children; `CubeLayout` and `FaceContents` state where each face is and what it carries |
| `CubeScene.NameFontSize` | src/components/customizable-cube-generator.jsx:121 | the name font-size ternary; `FontSizeThresholds` and `FontSizeMonotone` state it |
| `CubeScene.CompanyFontSize` | src/components/customizable-cube-generator.jsx:132 | the company font-size ternary; `FontSizeThresholds` and `FontSizeMonotone` state it |
| `CubeScene.NameCard` | src/components/customizable-cube-generator.jsx:112-142 | the front face's text group; `FaceContents` and `TextOnlyOnFront` state it |
| `CubeScene.GoingToCaption` | src/components/customizable-cube-generator.jsx:150-171 | the back face's two labels "I'm going to" (regular) and "Next.js Conf" (bold) at (-1.3, 1.1) and (-1.3, 0.6), size 0.3; `FaceContents` states that the back face carries them |
| `CubeScene.ConfDate` | src/components/customizable-cube-generator.jsx:70-93 | the `DateText` component: "Oct 24" above "2024", centred, size 0.25, mono font; `FaceContents` states that the top and bottom faces carry it |
| `CubeScene.BuildCube` | src/components/customizable-cube-generator.jsx:95-211 | the `Cube` component: three lights then six faces; `CubeLayout`, `SharedMaterial`, `FaceContents`, `LightsFollowIntensity` and `TextOnlyOnFront` state its properties |
| `CubeScene.BuildScene` | src/components/customizable-cube-generator.jsx:213-226 | the `Scene` component: the environment preset, the cube, and zoom disabled; `UiStateDoesNotAffectScene` and `TextEditsRedrawOnlyFront` state what it depends on |
| `CubeScene.OffsetValue` | src/components/customizable-cube-generator.jsx:104 | the faces sit at 1.5 + 0.005/2 = 1.5025 from the centre, more than half the 2.98 face width |
| `CubeScene.FontSizeThresholds` | src/components/customizable-cube-generator.jsx:121-132 | the name font is 0.35 exactly when the name has at most 20 characters and 0.25 beyond; the company font is 0.18 up to 30 characters and 0.12 beyond |
| `CubeScene.FontSizeMonotone` | src/components/customizable-cube-generator.jsx:121-132 | a longer name or company never gets a larger font |
| `CubeScene.CubeLayout` | src/components/customizable-cube-generator.jsx:104-208 | there are exactly six faces, each centred on an axis at distance Offset, pairwise at distinct positions, each with an opposite face |
| `CubeScene.SharedMaterial` | src/components/customizable-cube-generator.jsx:23-37 | every face has one common material: colour as given, metalness glossiness*0.5, roughness blur, clearcoat and envMapIntensity glossiness, transparent at opacity 0.8, clearcoat roughness 0.1, reflectivity 1, on a 2.98 plane |
| `CubeScene.FaceContents` | src/components/customizable-cube-generator.jsx:111-208 | front carries name and company at their threshold font sizes; back the captions "I'm going to" and "Next.js Conf"; +x the Next.js Conf logo; -x the Vercel logo; top and bottom the date "Oct 24" / "2024" |
| `CubeScene.LightsFollowIntensity` | src/components/customizable-cube-generator.jsx:108-110 | the ambient light and both point lights shine with the chosen light intensity |
| `CubeScene.TextOnlyOnFront` | src/components/customizable-cube-generator.jsx:112-142 | changing name or company changes neither the other five faces, nor the lights, nor the front face's material |
| `LinkCodec.FirstIndex` | src/components/customizable-cube-generator.jsx:241 | the index found is that of the first pair with the key, or the length of the query when the key is absent |
| `LinkCodec.Get` | src/components/customizable-cube-generator.jsx:241 | get yields nothing exactly when no pair has the key, and otherwise the value of the first pair with that key |
| `LinkCodec.OrElse` | src/components/customizable-cube-generator.jsx:241-246 | the JavaScript logical-or fallback on the result of get; `DecodeName` and `FirstValueWins` state the fallback |
| `LinkCodec.Decode` | src/components/customizable-cube-generator.jsx:241-246 | what the `useState` initialisers read from the link; `DecodeEncode`, `DecodeName`, `DecodeEmpty`, `UnknownKeysIgnored` and `FirstValueWins` state its properties |
| `LinkCodec.Encode` | src/components/customizable-cube-generator.jsx:260-267 | the link has one pair per link key, in the order name, company, color, glossiness, blur, lightIntensity |
| `LinkCodec.EncodeKeys` | src/components/customizable-cube-generator.jsx:260-267 | exactly six keys, each once; environment, rotationSpeed and showControls are not among them |
| `LinkCodec.DecodeEncode` | src/components/customizable-cube-generator.jsx:241-267 | decoding an encoded link gives every field back, except that an empty field comes back as its default |
| `LinkCodec.RoundTrip` | src/components/customizable-cube-generator.jsx:241-267 | a link whose fields are all non-empty is restored exactly |
| `LinkCodec.DecodeIsStable` | src/components/customizable-cube-generator.jsx:241-267 | decoding never yields an empty field, so sharing what was decoded and decoding it again changes nothing |
| `LinkCodec.DecodeName` | src/components/customizable-cube-generator.jsx:241 | the decoded name is the value of the first name pair when that value is non-empty, and "Your Name" when the key is missing or its first value is empty |
| `LinkCodec.DecodeEmpty` | src/components/customizable-cube-generator.jsx:241-246 | a link without parameters decodes to "Your Name", "Your Company", "#006EFE", "0.9", "0.1", "1.5" |
| `LinkCodec.UnknownKeysIgnored` | src/components/customizable-cube-generator.jsx:241-246 | a pair with a key the link does not use changes nothing, whether it comes first or last |
| `LinkCodec.FirstValueWins` | src/components/customizable-cube-generator.jsx:241-246 | on three example links: only the first value of a repeated name or glossiness counts, the values "badword1" and "7" are taken verbatim, not filtered and not range-checked, and an empty first colour falls back to the default (the general first-occurrence law is the ensures of `Get` and `DecodeName`) |
| `Generator.InitialSettings` | src/components/customizable-cube-generator.jsx:241-250 | the `useState` initial values; `NoLinkDefaults`, `ShareThenOpen` and `SeededNameIsUnfiltered` state its properties |
| `Generator.SharedFields` | src/components/customizable-cube-generator.jsx:260-267 | the values `generateShareLink` puts in the link, numbers through `toString`; `ShareThenOpen` relates it to the initial state |
| `Generator.SceneOf` | src/components/customizable-cube-generator.jsx:294-302 | the props passed to `Scene`; `UiStateDoesNotAffectScene` and `TextEditsRedrawOnlyFront` state what it depends on |
| `Generator.CustomizableCubeGenerator.constructor` | src/components/customizable-cube-generator.jsx:241-250 | the initial state is name, company and colour decoded from the link, the three numbers parsed from their decoded text, controls shown, no share link, environment "city", rotation speed 0.2 |
| `Generator.CustomizableCubeGenerator.FocusOnMount` | src/components/customizable-cube-generator.jsx:253-257 | when the controls are shown the name input takes focus and its handler clears the name; otherwise nothing changes |
| `Generator.CustomizableCubeGenerator.ToggleControls` | src/components/customizable-cube-generator.jsx:317 | flips showControls, changes nothing else, and leaves the rendered scene unchanged |
| `Generator.CustomizableCubeGenerator.ChangeName` | src/components/customizable-cube-generator.jsx:331 | stores filterProfanity(input) as the name, changes nothing else; no token of the stored name is denylisted |
| `Generator.CustomizableCubeGenerator.FocusName` | src/components/customizable-cube-generator.jsx:335-338 | clears the name to "" and changes nothing else |
| `Generator.CustomizableCubeGenerator.ChangeCompany` | src/components/customizable-cube-generator.jsx:346 | stores filterProfanity(input) as the company, changes nothing else; no token of the stored company is denylisted |
| `Generator.CustomizableCubeGenerator.FocusCompany` | src/components/customizable-cube-generator.jsx:350-353 | clears the company to "" and changes nothing else |
| `Generator.CustomizableCubeGenerator.ChangeColor` | src/components/customizable-cube-generator.jsx:360-365 | stores the picker's or text input's value verbatim as the colour and changes nothing else |
| `Generator.CustomizableCubeGenerator.ResetColor` | src/components/customizable-cube-generator.jsx:371 | sets the colour to "#006EFE" and changes nothing else |
| `Generator.CustomizableCubeGenerator.ChangeGlossiness` | src/components/customizable-cube-generator.jsx:390-395 | stores the slider value (0 to 1) as glossiness and changes nothing else |
| `Generator.CustomizableCubeGenerator.ChangeBlur` | src/components/customizable-cube-generator.jsx:400-405 | stores the slider value (0 to 1) as blur and changes nothing else |
| `Generator.CustomizableCubeGenerator.ChangeLightIntensity` | src/components/customizable-cube-generator.jsx:410-415 | stores the slider value (0 to 3) as light intensity and changes nothing else |
| `Generator.CustomizableCubeGenerator.ChangeEnvironment` | src/components/customizable-cube-generator.jsx:420-435 | stores the selected preset, one of the ten offered, and changes nothing else |
| `Generator.CustomizableCubeGenerator.ChangeRotationSpeed` | src/components/customizable-cube-generator.jsx:440-445 | stores the slider value (0 to 1) as rotation speed and changes nothing else |
| `Generator.CustomizableCubeGenerator.GenerateShareLink` | src/components/customizable-cube-generator.jsx:259-269 | records a link for the given address whose query encodes the current name, company, colour and number texts, changes nothing else, does not change the scene, and decodes back to those fields, an empty one as its default |
| `Generator.NoLinkDefaults` | src/components/customizable-cube-generator.jsx:241-250 | without a link, the component starts from "Your Name", "Your Company", "#006EFE", the parsed "0.9", "0.1" and "1.5", controls shown, environment "city", rotation speed 0.2 |
| `Generator.ShareThenOpen` | src/components/customizable-cube-generator.jsx:241-267 | the initial state seeded by a share link holds its name, company and colour (an empty one as its default) and the three numbers when parseFloat reads back toString; environment, rotation speed and controls always start at their defaults |
| `Generator.Open` | src/components/customizable-cube-generator.jsx:241-257 | opening the page yields a fresh component whose state is the initial state with the name cleared by the mount effect |
| `Generator.ShareThenLoad` | src/components/customizable-cube-generator.jsx:241-267 | after opening a share link and the mount effect the name is "", while company and colour (an empty one as its default) and the three numbers, under the same hypothesis, survive |
| `Generator.SeededNameIsUnfiltered` | src/components/customizable-cube-generator.jsx:241 | in the initial state, a denylisted word seeded as name from the link is stored verbatim, while typing it would have masked it |
| `Generator.UiStateDoesNotAffectScene` | src/components/customizable-cube-generator.jsx:294-302 | showControls and the share link do not take part in the rendered scene |
| `Generator.TextEditsRedrawOnlyFront` | src/components/customizable-cube-generator.jsx:294-302 | editing name or company changes only the front face of the rendered cube and none of its lights |

## Left out

- Per-frame spin (`useFrame`, `rotation.y += delta * rotationSpeed`): floating-point accumulation driven by the rendering library's frame scheduler. The rotation speed is kept as a field only.
- Face rotations built from `Math.PI`: floating point. Each face's content is tied to its position instead.
- The rendering libraries (`Canvas`, `Text`, `Environment`, `OrbitControls`, `useTexture`, `THREE.Shape`): foreign code. The logos are opaque tags. Logo scale and geometry, label colour "white", `maxWidth` and the `characters` set, and the camera position are not recorded.
- Markup and styling, including layout classes that depend on `showControls`: presentation only.
- `parseFloat`, `toString` and `URLSearchParams` percent-encoding and serialisation: number formatting and library code. They are function parameters, or the link is an abstract list of pairs.
- Floating-point numbers: glossiness, blur, light intensity and rotation speed are Dafny `real`s. `NaN`, which `parseFloat` gives for malformed link text such as `?glossiness=abc`, and IEEE double rounding are not represented; `parseFloat` maps such text to some real, and no lemma depends on which.
- Clipboard write, `alert`, `console.error` and `window.location`: browser I/O and asynchronous work. Only the update of the `shareLink` field is modelled, with the page address as a parameter.
- The `useEffect` scheduling and the DOM focus call: the effect is modelled by `FocusOnMount`, which fires `FocusName` when the controls are shown. So a name seeded from a link is cleared on load, while company, colour and the numbers survive.
- `e.target.select()` in both focus handlers (lines 336 and 351): it selects the input's text in the browser and changes no state hook.
- Range enforcement by the sliders and the environment selector: supplied by the widgets. It is stated only as preconditions of the change handlers.
- Full Unicode `toLowerCase` and UTF-16 `length`: the model lowercases ASCII letters only and counts characters, which agree with the code on ASCII text.
- Generator.ShareThenOpen: numbers are restored only under the hypothesis that `parseFloat` reads back what `toString` wrote, because both are outside the model.
- Generator.ShareThenLoad: the same hypothesis about the numbers, for the same reason.
- src/app/page.js: it only renders the component.
