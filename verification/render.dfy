/** `renderItems`: the cards a list of item records turns into, and the
    container content that replaces whatever was there before. */
module Render {
  import opened Wrappers
  import opened Text
  import opened Layout

  /** An item record as the server delivers it; `description` and
      `imageBase64` may be missing */
  datatype Item = Item(
    name: string,
    description: Option<string>,
    category: string,
    location: string,
    status: string,
    dateReported: string,
    contactInfo: string,
    imageBase64: Option<string>)

  datatype BadgeVariant = Danger | Success

  datatype Badge = Badge(variant: BadgeVariant, text: string)

  /** The fields of one rendered card, in place of its markup */
  datatype Card = Card(
    imageSrc: string,
    badge: Badge,
    title: string,
    description: string,
    category: string,
    location: string,
    dateReported: string,
    contactInfo: string)

  /** The content of the list container. `NoContainer` stands for a page without
      the target element; `Initial` for the content the page shipped with. */
  datatype View = NoContainer | Initial | Message(text: string) | Rows(rows: seq<seq<Card>>)

  const LostStatus: string := "lost"
  const LostBadge: Badge := Badge(Danger, "\U{1F50D} Lost")
  const FoundBadge: Badge := Badge(BadgeVariant.Success, "\U{2705} Found")
  const DataUriPrefix: string := "data:image/jpeg;base64,"
  // split after the scheme so that its first characters are visible to the verifier
  const PlaceholderImage: string := "https://" + "via.placeholder.com/200x200?text=No+Image"
  const NoItemsText: string := "No items found."

  /** The status badge: "Lost" for status `lost`, "Found" for every other value */
  function BadgeFor(status: string): (b: Badge)
    ensures b == LostBadge <==> status == LostStatus
    ensures b == FoundBadge <==> status != LostStatus
  {
    if status == LostStatus then LostBadge else FoundBadge
  }

  /** The image source: an inline data URI when a payload is present, else the placeholder */
  function ImageSource(image: Option<string>): (src: string)
    ensures (|DataUriPrefix| <= |src| && src[..|DataUriPrefix|] == DataUriPrefix) <==> Truthy(image)
    ensures Truthy(image) ==> src[|DataUriPrefix|..] == image.value
    ensures !Truthy(image) ==> src == PlaceholderImage
  {
    if Truthy(image) then DataUriPrefix + image.value
    else
      assert PlaceholderImage[0] != DataUriPrefix[0];
      PlaceholderImage
  }

  /** The payload an image source carries, if it is an inline data URI */
  function PayloadOf(src: string): Option<string> {
    if |DataUriPrefix| <= |src| && src[..|DataUriPrefix|] == DataUriPrefix
    then Some(src[|DataUriPrefix|..])
    else None
  }

  /** The payload can be read back from the image source, and the placeholder is
      never mistaken for one. */
  lemma ImageRoundTrip(image: Option<string>)
    ensures PayloadOf(ImageSource(image)) == if Truthy(image) then image else None
  {
  }

  /** `item.description || ''` */
  function DescriptionText(d: Option<string>): (text: string)
    ensures text == "" <==> !Truthy(d)
    ensures text != "" ==> d == Some(text)
  {
    d.GetOr("")
  }

  /** The card for one item */
  function CardFor(item: Item): (card: Card)
    ensures card.badge == LostBadge <==> item.status == LostStatus
    ensures card.badge == FoundBadge <==> item.status != LostStatus
    ensures PayloadOf(card.imageSrc) == if Truthy(item.imageBase64) then item.imageBase64 else None
    ensures !Truthy(item.imageBase64) ==> card.imageSrc == PlaceholderImage
    ensures card.description == "" <==> !Truthy(item.description)
    ensures card.description != "" ==> item.description == Some(card.description)
    ensures card.title == item.name && card.category == item.category && card.location == item.location
    ensures card.dateReported == item.dateReported && card.contactInfo == item.contactInfo
  {
    ImageRoundTrip(item.imageBase64);
    Card(ImageSource(item.imageBase64), BadgeFor(item.status), item.name,
         DescriptionText(item.description), item.category, item.location,
         item.dateReported, item.contactInfo)
  }

  /** The cards for `items`, in order */
  function Cards(items: seq<Item>): (cards: seq<Card>)
    ensures |cards| == |items|
    ensures forall i :: 0 <= i < |items| ==> cards[i] == CardFor(items[i])
  {
    seq(|items|, i requires 0 <= i < |items| => CardFor(items[i]))
  }

  /** The container after `renderItems(items)`: unchanged when it does not exist,
      otherwise cleared and refilled with a message or with rows of two cards */
  function RenderItems(items: seq<Item>, target: View): (r: View)
    ensures r == NoContainer <==> target == NoContainer
    ensures target != NoContainer && items == [] ==> r == Message(NoItemsText)
    ensures target != NoContainer && items != [] ==>
      && r.Rows?
      && |r.rows| == (|items| + 1) / 2
      && (forall k :: 0 <= k < |r.rows| - 1 ==> |r.rows[k]| == 2)
      && |r.rows[|r.rows| - 1]| == 2 - |items| % 2
      && (forall i :: 0 <= i < |items| ==>
            i / 2 < |r.rows| && i % 2 < |r.rows[i / 2]| && r.rows[i / 2][i % 2] == CardFor(items[i]))
  {
    if target == NoContainer then NoContainer
    else if items == [] then Message(NoItemsText)
    else Rows(RowsOf(Cards(items)))
  }

  /** Reading the rendered rows left to right gives one card per item, in input order */
  lemma RenderPreservesOrder(items: seq<Item>, target: View)
    requires target != NoContainer && items != []
    ensures RenderItems(items, target).Rows?
    ensures Flatten(RenderItems(items, target).rows) == Cards(items)
  {
    FlattenRowsOf(Cards(items));
  }

  /** The container is fully replaced: what it held before does not matter */
  lemma RenderIgnoresPrior(items: seq<Item>, a: View, b: View)
    requires a != NoContainer && b != NoContainer
    ensures RenderItems(items, a) == RenderItems(items, b)
  {
  }
}
