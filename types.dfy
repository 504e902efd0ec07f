/** The shared records of the front-end: the theme text returned by the
    text model and the four kinds of visual asset. */
module Types {
  import opened JsText

  /** The structured theme returned by the text model. The provider's schema
      asks for five colours, five songs, four ideas and four tips; nothing in
      the front-end checks those lengths. */
  datatype ThemeTextData = ThemeTextData(
    title: string,
    description: string,
    colorPalette: seq<string>,
    musicPlaylist: seq<string>,
    eventIdeas: seq<string>,
    decorationTips: seq<string>)

  /** The string enum `AssetType`: invitation, shirt, flag, decoration. */
  datatype AssetType = Invitation | Shirt | Flag | Decoration

  /** The enum's string value, which is also the label the card shows. The
      labels are non-empty and contain no whitespace. */
  function Label(t: AssetType): (s: string)
    ensures s != [] && SpaceFree(s)
  {
    match t
    case Invitation => "Convite"
    case Shirt => "Camisa"
    case Flag => "Bandeira"
    case Decoration => "Decoração"
  }

  /** Distinct kinds have labels that already differ in their first two
      characters, so a label determines its kind even at the head of a
      longer string. */
  lemma LabelsDistinct(a: AssetType, b: AssetType)
    requires a != b
    ensures |Label(a)| >= 2 && |Label(b)| >= 2
    ensures Label(a)[..2] != Label(b)[..2]
  {
    assert Label(Invitation)[..2] == "Co";
    assert Label(Shirt)[..2] == "Ca";
    assert Label(Flag)[..2] == "Ba";
    assert Label(Decoration)[..2] == "De";
  }
}
