/** The CustomizableCubeGenerator component: its state hooks as the fields of
    a class, seeded from the share link, and one method per event handler.
    Each handler changes exactly one field.
 */
module Generator {
  import opened Profanity
  import opened LinkCodec
  import opened CubeScene

  /** The presets the environment selector offers. */
  const EnvironmentPresets: seq<string> :=
    ["sunset", "dawn", "night", "warehouse", "forest", "apartment", "studio", "city", "park", "lobby"]

  const DefaultEnvironment: string := "city"
  const DefaultRotationSpeed: real := 0.2

  /** The last share link made: the page address (origin and path) and the query. */
  datatype ShareLink = NoLink | Link(address: string, query: Query)

  /** A snapshot of every state hook of the component. */
  datatype Settings = Settings(
    name: string,
    company: string,
    color: string,
    glossiness: real,
    blur: real,
    lightIntensity: real,
    showControls: bool,
    shareLink: ShareLink,
    environment: string,
    rotationSpeed: real)

  /** The initial state: name, company, colour and the three numbers come from
      the link (numbers through parseFloat), the rest is fixed. */
  function InitialSettings(q: Query, parseFloat: string -> real): Settings
  {
    var d := Decode(q);
    Settings(
      name := d.name,
      company := d.company,
      color := d.color,
      glossiness := parseFloat(d.glossiness),
      blur := parseFloat(d.blur),
      lightIntensity := parseFloat(d.lightIntensity),
      showControls := true,
      shareLink := NoLink,
      environment := DefaultEnvironment,
      rotationSpeed := DefaultRotationSpeed)
  }

  /** The fields generateShareLink puts in the link, numbers through toString. */
  function SharedFields(s: Settings, toText: real -> string): LinkFields
  {
    LinkFields(s.name, s.company, s.color, toText(s.glossiness), toText(s.blur), toText(s.lightIntensity))
  }

  /** The scene the component renders for a state. */
  function SceneOf(s: Settings): SceneGraph
  {
    BuildScene(CubeProps(s.name, s.company, s.color, s.glossiness, s.blur, s.lightIntensity, s.rotationSpeed), s.environment)
  }

  /** The handlers of the name, company, colour, slider and environment
      controls exist only while the controls are shown; the share and eye
      buttons are always on the page. */
  class CustomizableCubeGenerator {
    var name: string
    var company: string
    var color: string
    var glossiness: real
    var blur: real
    var lightIntensity: real
    var showControls: bool
    var shareLink: ShareLink
    var environment: string
    var rotationSpeed: real

    function State(): Settings
      reads this
    {
      Settings(name, company, color, glossiness, blur, lightIntensity, showControls, shareLink, environment, rotationSpeed)
    }

    /** The two settings that never come from a link stay in the ranges of
        their widgets. Glossiness, blur and light intensity are not covered:
        a link can seed them with any number. */
    ghost predicate Valid()
      reads this
    {
      environment in EnvironmentPresets && 0.0 <= rotationSpeed <= 1.0
    }

    constructor (q: Query, parseFloat: string -> real)
      ensures State() == InitialSettings(q, parseFloat)
      ensures Valid()
    {
      var s := InitialSettings(q, parseFloat);
      name, company, color := s.name, s.company, s.color;
      glossiness, blur, lightIntensity := s.glossiness, s.blur, s.lightIntensity;
      showControls, shareLink := s.showControls, s.shareLink;
      environment, rotationSpeed := s.environment, s.rotationSpeed;
    }

    /** The mount effect: when the name input is on the page (the controls
        are shown) it receives focus, and its focus handler clears the name. */
    method FocusOnMount()
      requires Valid()
      modifies this
      ensures Valid()
      ensures State() == if old(showControls) then old(State()).(name := "") else old(State())
    {
      if showControls {
        FocusName();
      }
    }

    /** The eye button. */
    method ToggleControls()
      requires Valid()
      modifies this
      ensures Valid()
      ensures State() == old(State()).(showControls := !old(showControls))
      ensures SceneOf(State()) == SceneOf(old(State()))
    {
      showControls := !showControls;
    }

    /** Typing in the name input stores the filtered text. */
    method ChangeName(input: string)
      requires Valid()
      requires showControls
      modifies this
      ensures Valid()
      ensures State() == old(State()).(name := FilterProfanity(input))
      ensures forall k :: 0 <= k < |Split(name)| ==> !IsProfane(Split(name)[k])
    {
      name := FilterProfanity(input);
      FilterLeavesNoProfanity(input);
    }

    /** Focusing the name input clears it. */
    method FocusName()
      requires Valid()
      requires showControls
      modifies this
      ensures Valid()
      ensures State() == old(State()).(name := "")
    {
      name := "";
    }

    /** Typing in the company input stores the filtered text. */
    method ChangeCompany(input: string)
      requires Valid()
      requires showControls
      modifies this
      ensures Valid()
      ensures State() == old(State()).(company := FilterProfanity(input))
      ensures forall k :: 0 <= k < |Split(company)| ==> !IsProfane(Split(company)[k])
    {
      company := FilterProfanity(input);
      FilterLeavesNoProfanity(input);
    }

    /** Focusing the company input clears it. */
    method FocusCompany()
      requires Valid()
      requires showControls
      modifies this
      ensures Valid()
      ensures State() == old(State()).(company := "")
    {
      company := "";
    }

    /** The colour picker and the hex text input store their value as it is. */
    method ChangeColor(value: string)
      requires Valid()
      requires showControls
      modifies this
      ensures Valid()
      ensures State() == old(State()).(color := value)
    {
      color := value;
    }

    /** The reset button restores the default colour. */
    method ResetColor()
      requires Valid()
      requires showControls
      modifies this
      ensures Valid()
      ensures State() == old(State()).(color := DefaultColor)
      ensures color == "#006EFE"
    {
      color := DefaultColor;
    }

    /** The glossiness slider (0 to 1). */
    method ChangeGlossiness(value: real)
      requires Valid()
      requires showControls
      requires 0.0 <= value <= 1.0
      modifies this
      ensures Valid()
      ensures State() == old(State()).(glossiness := value)
    {
      glossiness := value;
    }

    /** The blur slider (0 to 1). */
    method ChangeBlur(value: real)
      requires Valid()
      requires showControls
      requires 0.0 <= value <= 1.0
      modifies this
      ensures Valid()
      ensures State() == old(State()).(blur := value)
    {
      blur := value;
    }

    /** The light-intensity slider (0 to 3). */
    method ChangeLightIntensity(value: real)
      requires Valid()
      requires showControls
      requires 0.0 <= value <= 3.0
      modifies this
      ensures Valid()
      ensures State() == old(State()).(lightIntensity := value)
    {
      lightIntensity := value;
    }

    /** The environment selector. */
    method ChangeEnvironment(preset: string)
      requires Valid()
      requires showControls
      requires preset in EnvironmentPresets
      modifies this
      ensures Valid()
      ensures State() == old(State()).(environment := preset)
    {
      environment := preset;
    }

    /** The rotation-speed slider (0 to 1). */
    method ChangeRotationSpeed(value: real)
      requires Valid()
      requires showControls
      requires 0.0 <= value <= 1.0
      modifies this
      ensures Valid()
      ensures State() == old(State()).(rotationSpeed := value)
    {
      rotationSpeed := value;
    }

    /** The share button: records the link for the page at `address`. Writing
        it to the clipboard and the alert are not described. */
    method GenerateShareLink(address: string, toText: real -> string)
      requires Valid()
      modifies this
      ensures Valid()
      ensures State() == old(State()).(shareLink := Link(address, Encode(SharedFields(old(State()), toText))))
      ensures Decode(shareLink.query) == WithDefaults(SharedFields(State(), toText))
      ensures SceneOf(State()) == SceneOf(old(State()))
    {
      shareLink := Link(address, Encode(SharedFields(State(), toText)));
      DecodeEncode(SharedFields(State(), toText));
    }
  }

  // ---------------------------------------------------------------------
  // Properties of the component as a whole
  // ---------------------------------------------------------------------

  /** Without a link the component starts from the defaults of the `useState` initialisers. */
  lemma NoLinkDefaults(parseFloat: string -> real)
    ensures InitialSettings([], parseFloat) ==
      Settings("Your Name", "Your Company", "#006EFE", parseFloat("0.9"), parseFloat("0.1"), parseFloat("1.5"),
               true, NoLink, "city", 0.2)
  {
    DecodeEmpty();
  }

  /** The initial state seeded by a share link holds name, company and colour (an empty one as
      its default), and the three numbers whenever parseFloat reads back what
      toString wrote; the environment, rotation speed and visibility of the
      controls always come back as their defaults. */
  lemma ShareThenOpen(s: Settings, toText: real -> string, parseFloat: string -> real)
    requires toText(s.glossiness) != "" && parseFloat(toText(s.glossiness)) == s.glossiness
    requires toText(s.blur) != "" && parseFloat(toText(s.blur)) == s.blur
    requires toText(s.lightIntensity) != "" && parseFloat(toText(s.lightIntensity)) == s.lightIntensity
    ensures InitialSettings(Encode(SharedFields(s, toText)), parseFloat) ==
      s.(name := if s.name == "" then DefaultName else s.name,
         company := if s.company == "" then DefaultCompany else s.company,
         color := if s.color == "" then DefaultColor else s.color,
         showControls := true,
         shareLink := NoLink,
         environment := DefaultEnvironment,
         rotationSpeed := DefaultRotationSpeed)
  {
    DecodeEncode(SharedFields(s, toText));
  }

  /** Opening the page: the state hooks take their initial values and then
      the mount effect clears the name. */
  method Open(q: Query, parseFloat: string -> real) returns (g: CustomizableCubeGenerator)
    ensures fresh(g) && g.Valid()
    ensures g.State() == InitialSettings(q, parseFloat).(name := "")
  {
    g := new CustomizableCubeGenerator(q, parseFloat);
    g.FocusOnMount();
  }

  /** What a visitor sees after opening a share link and the mount effect: the
      name is cleared, while company and colour (an empty one as its default)
      and, under the same hypothesis about the numbers, glossiness, blur and
      light intensity survive. */
  lemma ShareThenLoad(s: Settings, toText: real -> string, parseFloat: string -> real)
    requires toText(s.glossiness) != "" && parseFloat(toText(s.glossiness)) == s.glossiness
    requires toText(s.blur) != "" && parseFloat(toText(s.blur)) == s.blur
    requires toText(s.lightIntensity) != "" && parseFloat(toText(s.lightIntensity)) == s.lightIntensity
    ensures InitialSettings(Encode(SharedFields(s, toText)), parseFloat).(name := "") ==
      s.(name := "",
         company := if s.company == "" then DefaultCompany else s.company,
         color := if s.color == "" then DefaultColor else s.color,
         showControls := true,
         shareLink := NoLink,
         environment := DefaultEnvironment,
         rotationSpeed := DefaultRotationSpeed)
  {
    ShareThenOpen(s, toText, parseFloat);
  }

  /** A name seeded from the link is stored verbatim, while typing the same
      text would have masked it. */
  lemma SeededNameIsUnfiltered(word: string, parseFloat: string -> real)
    requires word in Profanities
    ensures InitialSettings([("name", word)], parseFloat).name == word
    ensures FilterProfanity(word) == Stars(|word|) != word
  {
    FilterDenylisted(word);
  }

  /** Hiding the controls and making a share link do not change what is drawn. */
  lemma UiStateDoesNotAffectScene(s: Settings, show: bool, link: ShareLink)
    ensures SceneOf(s.(showControls := show, shareLink := link)) == SceneOf(s)
  {
  }

  /** Editing the name or the company redraws only the front face. */
  lemma TextEditsRedrawOnlyFront(s: Settings, name: string, company: string)
    ensures |SceneOf(s).cube.faces| == 6
    ensures SceneOf(s.(name := name, company := company)).cube.faces[1..] == SceneOf(s).cube.faces[1..]
    ensures SceneOf(s.(name := name, company := company)).cube.lights == SceneOf(s).cube.lights
  {
  }
}
