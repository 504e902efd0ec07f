/**
 * The results screen, as far as it matters here: it renders one asset card
 * per asset kind, all for the topic the theme was generated from.
 */
module ThemeDashboard {
  import opened Types
  import opened GeminiService
  import opened AssetCard

  /** The four `AssetCard` elements, in the order they are rendered. */
  function AssetCards(originalTopic: string): (cards: seq<CardProps>)
    ensures |cards| == 4
    ensures forall i :: 0 <= i < |cards| ==> cards[i].topic == originalTopic
    ensures forall t: AssetType :: cards[KindIndex(t)].kind == t
    ensures forall i, j :: 0 <= i < j < |cards| ==> cards[i].kind != cards[j].kind
  {
    [CardProps(Invitation, originalTopic), CardProps(Shirt, originalTopic),
     CardProps(Flag, originalTopic), CardProps(Decoration, originalTopic)]
  }

  /** Where each kind sits among the cards. */
  function KindIndex(t: AssetType): (i: nat)
    ensures i < 4
  {
    match t
    case Invitation => 0
    case Shirt => 1
    case Flag => 2
    case Decoration => 3
  }

  /** The four cards request four different images: no two of them send the
      same prompt. */
  lemma CardPromptsDistinct(originalTopic: string, i: nat, j: nat)
    requires i < j < 4
    ensures var cards := AssetCards(originalTopic);
      AssetPrompt(cards[i].topic, cards[i].kind) != AssetPrompt(cards[j].topic, cards[j].kind)
  {
    var cards := AssetCards(originalTopic);
    AssetPromptsDistinct(originalTopic, cards[i].kind, cards[j].kind);
  }
}
