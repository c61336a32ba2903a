/** The share-link parameters. A link's query is an ordered list of
    (key, value) pairs; percent-encoding belongs to URLSearchParams and is
    not described. Numeric settings travel as the text that toString gives
    and that parseFloat later reads; that text is opaque here.
 */
module LinkCodec {

  datatype Option<T> = None | Some(value: T)

  type Query = seq<(string, string)>

  const DefaultName: string := "Your Name"
  const DefaultCompany: string := "Your Company"
  const DefaultColor: string := "#006EFE"
  const DefaultGlossiness: string := "0.9"
  const DefaultBlur: string := "0.1"
  const DefaultLightIntensity: string := "1.5"

  /** The keys a share link carries, in the order it carries them. */
  const LinkKeys: seq<string> := ["name", "company", "color", "glossiness", "blur", "lightIntensity"]

  /** The values carried by a share link, numbers as text. */
  datatype LinkFields = LinkFields(
    name: string,
    company: string,
    color: string,
    glossiness: string,
    blur: string,
    lightIntensity: string)

  /** Index of the first pair with key `key`, or |q| when there is none. */
  function FirstIndex(q: Query, key: string): (i: nat)
    ensures i <= |q|
    ensures i < |q| ==> q[i].0 == key
    ensures forall j :: 0 <= j < i ==> q[j].0 != key
    decreases |q|
  {
    if |q| == 0 then 0
    else if q[0].0 == key then 0
    else 1 + FirstIndex(q[1..], key)
  }

  /** URLSearchParams.get: the value of the first pair with the key, if any. */
  function Get(q: Query, key: string): (r: Option<string>)
    ensures r.None? <==> forall j :: 0 <= j < |q| ==> q[j].0 != key
    ensures r.Some? ==> exists i :: 0 <= i < |q| && q[i] == (key, r.value) && forall j :: 0 <= j < i ==> q[j].0 != key
  {
    var i := FirstIndex(q, key);
    if i < |q| then Some(q[i].1) else None
  }

  /** JavaScript `value || fallback` on the result of get: a missing key and
      an empty value both give the fallback. */
  function OrElse(value: Option<string>, fallback: string): string
  {
    if value.Some? && value.value != "" then value.value else fallback
  }

  /** What the component reads from the link when it starts. No range
      check and no profanity filter is applied. */
  function Decode(q: Query): LinkFields
  {
    LinkFields(
      name := OrElse(Get(q, "name"), DefaultName),
      company := OrElse(Get(q, "company"), DefaultCompany),
      color := OrElse(Get(q, "color"), DefaultColor),
      glossiness := OrElse(Get(q, "glossiness"), DefaultGlossiness),
      blur := OrElse(Get(q, "blur"), DefaultBlur),
      lightIntensity := OrElse(Get(q, "lightIntensity"), DefaultLightIntensity))
  }

  /** The parameter object built by generateShareLink. */
  function Encode(f: LinkFields): (q: Query)
    ensures |q| == |LinkKeys|
    ensures forall i :: 0 <= i < |q| ==> q[i].0 == LinkKeys[i]
  {
    [ ("name", f.name),
      ("company", f.company),
      ("color", f.color),
      ("glossiness", f.glossiness),
      ("blur", f.blur),
      ("lightIntensity", f.lightIntensity) ]
  }

  /** Each field replaced by its default when it is empty. */
  function WithDefaults(f: LinkFields): LinkFields
  {
    LinkFields(
      if f.name == "" then DefaultName else f.name,
      if f.company == "" then DefaultCompany else f.company,
      if f.color == "" then DefaultColor else f.color,
      if f.glossiness == "" then DefaultGlossiness else f.glossiness,
      if f.blur == "" then DefaultBlur else f.blur,
      if f.lightIntensity == "" then DefaultLightIntensity else f.lightIntensity)
  }

  predicate NoEmptyField(f: LinkFields)
  {
    f.name != "" && f.company != "" && f.color != "" && f.glossiness != "" && f.blur != "" && f.lightIntensity != ""
  }

  // ---------------------------------------------------------------------
  // Properties
  // ---------------------------------------------------------------------

  /** The link carries exactly the six keys, each once; environment,
      rotationSpeed and showControls are not among them. */
  lemma EncodeKeys(f: LinkFields)
    ensures |Encode(f)| == 6
    ensures forall i, j :: 0 <= i < j < |Encode(f)| ==> Encode(f)[i].0 != Encode(f)[j].0
    ensures forall i :: 0 <= i < |Encode(f)| ==>
      Encode(f)[i].0 != "environment" && Encode(f)[i].0 != "rotationSpeed" && Encode(f)[i].0 != "showControls"
  {
  }

  /** Decoding a link gives every field back, except that an empty field
      comes back as its default. */
  lemma {:induction false} DecodeEncode(f: LinkFields)
    ensures Decode(Encode(f)) == WithDefaults(f)
  {
    var q := Encode(f);
    forall k | 0 <= k < |q| ensures FirstIndex(q, LinkKeys[k]) == k {
      FirstIndexAt(q, LinkKeys[k], k);
    }
    assert LinkKeys[1] == "company" && LinkKeys[2] == "color" && LinkKeys[3] == "glossiness";
    assert LinkKeys[4] == "blur" && LinkKeys[5] == "lightIntensity";
  }

  /** The first pair with a key is found at its own position. */
  lemma FirstIndexAt(q: Query, key: string, k: nat)
    requires k < |q| && q[k].0 == key
    requires forall j :: 0 <= j < k ==> q[j].0 != key
    ensures FirstIndex(q, key) == k
  {
  }

  /** In particular a link without empty fields restores them all exactly. */
  lemma RoundTrip(f: LinkFields)
    requires NoEmptyField(f)
    ensures Decode(Encode(f)) == f
  {
    DecodeEncode(f);
  }

  /** Decoding never yields an empty field, so re-sharing what was decoded
      and decoding again changes nothing. */
  lemma DecodeIsStable(q: Query)
    ensures NoEmptyField(Decode(q))
    ensures Decode(Encode(Decode(q))) == Decode(q)
  {
    RoundTrip(Decode(q));
  }

  /** The name is restored from the link exactly when its key is present with
      a non-empty first value; otherwise the default is used. */
  lemma DecodeName(q: Query, v: string)
    ensures Decode(q).name == v <==>
      (if Get(q, "name").Some? && Get(q, "name").value != "" then Get(q, "name").value == v else v == DefaultName)
  {
  }

  /** A link without parameters gives the defaults of the `useState` initialisers. */
  lemma DecodeEmpty()
    ensures Decode([]) == LinkFields(DefaultName, DefaultCompany, DefaultColor, DefaultGlossiness, DefaultBlur, DefaultLightIntensity)
  {
  }

  /** Pairs with keys the link does not use make no difference, wherever they stand. */
  lemma UnknownKeysIgnored(q: Query, k: string, v: string)
    requires k !in LinkKeys
    ensures Decode([(k, v)] + q) == Decode(q)
    ensures Decode(q + [(k, v)]) == Decode(q)
  {
    var front := [(k, v)] + q;
    assert front[1..] == q;
    UnknownKeyInFront(front);
    UnknownKeyAtEnd(q, (k, v));
  }

  lemma UnknownKeyInFront(q: Query)
    requires |q| > 0 && q[0].0 !in LinkKeys
    ensures Decode(q) == Decode(q[1..])
  {
  }

  lemma UnknownKeyAtEnd(q: Query, p: (string, string))
    requires p.0 !in LinkKeys
    ensures Decode(q + [p]) == Decode(q)
  {
    FirstIndexAppend(q, p, "name");
    FirstIndexAppend(q, p, "company");
    FirstIndexAppend(q, p, "color");
    FirstIndexAppend(q, p, "glossiness");
    FirstIndexAppend(q, p, "blur");
    FirstIndexAppend(q, p, "lightIntensity");
  }

  lemma {:induction false} FirstIndexAppend(q: Query, p: (string, string), key: string)
    requires p.0 != key
    ensures FirstIndex(q + [p], key) == if FirstIndex(q, key) < |q| then FirstIndex(q, key) else |q| + 1
    decreases |q|
  {
    if |q| > 0 && q[0].0 != key {
      assert (q + [p])[1..] == q[1..] + [p];
      FirstIndexAppend(q[1..], p, key);
    }
  }

  /** Only the first value of a repeated key counts, and values are taken
      verbatim: no range check and no profanity filter. */
  lemma FirstValueWins()
    ensures Decode([("name", "badword1"), ("name", "Ada")]).name == "badword1"
    ensures Decode([("glossiness", "7"), ("glossiness", "0.5")]).glossiness == "7"
    ensures Decode([("color", ""), ("color", "#ffffff")]).color == DefaultColor
  {
  }
}
