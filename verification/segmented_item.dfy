/** The item descriptors of the segmented control: a closed enum of six item
    kinds, and the accessors that project a payload out of some kinds and give
    None for every other kind. */
module SegmentedItem {
  import opened Wrappers

  /** A Kingfisher image source: a network resource, or a data provider that
      may know a content URL. The item layer only ever reads its URL. */
  datatype Source = Network(downloadUrl: string) | Provider(contentUrl: Option<string>)
  {
    function Url(): Option<string> {
      match this
      case Network(u) => Some(u)
      case Provider(u) => u
    }
  }

  /** Kingfisher's placeholder, UIKit's image and an attributed string: opaque. */
  type Placeholder(==)
  type UIImage(==)
  type AttributedString(==)

  /** The image payload of the build that links Kingfisher. */
  datatype KingfisherImage = KingfisherImage(source: Option<Source>, placeholder: Option<Placeholder>)

  /** The item enum, generic in the image payload so that both builds share
      one definition: `.image` and `.titleImage` carry an `Img`. */
  datatype ItemOf<Img> =
    | TitleItem(text: string)
    | ImageItem(img: Img)
    | TitleImageItem(text: string, img: Img)
    | TitleBadgeNumberItem(text: string, number: int)
    | TitleDotItem(text: string, dot: bool)
    | AttributedTitleItem(rich: AttributedString)

  /** The item as the build with Kingfisher declares it (the data source's build). */
  type Item = ItemOf<KingfisherImage>

  /** The item as the build without Kingfisher declares it. */
  type PlainItem = ItemOf<Option<UIImage>>

  /** The six kinds, without their payloads. */
  datatype Kind = TitleKind | ImageKind | TitleImageKind | TitleBadgeNumberKind | TitleDotKind | AttributedTitleKind

  function KindOf<Img>(item: ItemOf<Img>): Kind {
    match item
    case TitleItem(_) => TitleKind
    case ImageItem(_) => ImageKind
    case TitleImageItem(_, _) => TitleImageKind
    case TitleBadgeNumberItem(_, _) => TitleBadgeNumberKind
    case TitleDotItem(_, _) => TitleDotKind
    case AttributedTitleItem(_) => AttributedTitleKind
  }

  /** Whether the item carries an image payload. */
  predicate HasImage<Img>(item: ItemOf<Img>) {
    item.ImageItem? || item.TitleImageItem?
  }

  /** `title`: the plain title of the four kinds that have one. */
  function Title<Img>(item: ItemOf<Img>): (r: Option<string>)
    ensures r.Some? <==> !item.ImageItem? && !item.AttributedTitleItem?
    ensures r.Some? ==> r.value == item.text
  {
    match item
    case TitleItem(text) => Some(text)
    case ImageItem(_) => None
    case TitleImageItem(text, _) => Some(text)
    case TitleBadgeNumberItem(text, _) => Some(text)
    case TitleDotItem(text, _) => Some(text)
    case AttributedTitleItem(_) => None
  }

  /** `imageSource` (Kingfisher build). */
  function ImageSource(item: Item): (r: Option<Source>)
    ensures HasImage(item) ==> r == item.img.source
    ensures !HasImage(item) ==> r.None?
  {
    match item
    case TitleItem(_) => None
    case ImageItem(img) => img.source
    case TitleImageItem(_, img) => img.source
    case TitleBadgeNumberItem(_, _) => None
    case TitleDotItem(_, _) => None
    case AttributedTitleItem(_) => None
  }

  /** `imagePlaceholder` (Kingfisher build). */
  function ImagePlaceholder(item: Item): (r: Option<Placeholder>)
    ensures HasImage(item) ==> r == item.img.placeholder
    ensures !HasImage(item) ==> r.None?
  {
    match item
    case TitleItem(_) => None
    case ImageItem(img) => img.placeholder
    case TitleImageItem(_, img) => img.placeholder
    case TitleBadgeNumberItem(_, _) => None
    case TitleDotItem(_, _) => None
    case AttributedTitleItem(_) => None
  }

  /** `image` (build without Kingfisher). */
  function Image(item: PlainItem): (r: Option<UIImage>)
    ensures HasImage(item) ==> r == item.img
    ensures !HasImage(item) ==> r.None?
  {
    match item
    case TitleItem(_) => None
    case ImageItem(img) => img
    case TitleImageItem(_, img) => img
    case TitleBadgeNumberItem(_, _) => None
    case TitleDotItem(_, _) => None
    case AttributedTitleItem(_) => None
  }

  /** `badgeNumber`. */
  function BadgeNumber<Img>(item: ItemOf<Img>): (r: Option<int>)
    ensures r.Some? <==> item.TitleBadgeNumberItem?
    ensures r.Some? ==> r.value == item.number
  {
    match item
    case TitleItem(_) => None
    case ImageItem(_) => None
    case TitleImageItem(_, _) => None
    case TitleBadgeNumberItem(_, number) => Some(number)
    case TitleDotItem(_, _) => None
    case AttributedTitleItem(_) => None
  }

  /** `showsDot`. */
  function ShowsDot<Img>(item: ItemOf<Img>): (r: Option<bool>)
    ensures r.Some? <==> item.TitleDotItem?
    ensures r.Some? ==> r.value == item.dot
  {
    match item
    case TitleItem(_) => None
    case ImageItem(_) => None
    case TitleImageItem(_, _) => None
    case TitleBadgeNumberItem(_, _) => None
    case TitleDotItem(_, showsDot) => Some(showsDot)
    case AttributedTitleItem(_) => None
  }

  /** `attributedTitle`. */
  function AttributedTitle<Img>(item: ItemOf<Img>): (r: Option<AttributedString>)
    ensures r.Some? <==> item.AttributedTitleItem?
    ensures r.Some? ==> r.value == item.rich
  {
    match item
    case TitleItem(_) => None
    case ImageItem(_) => None
    case TitleImageItem(_, _) => None
    case TitleBadgeNumberItem(_, _) => None
    case TitleDotItem(_, _) => None
    case AttributedTitleItem(attributedTitle) => Some(attributedTitle)
  }

  /** An item carries at most one decoration (badge, dot or attributed text),
      and never both a plain and an attributed title. */
  lemma DecorationsExclusive<Img>(item: ItemOf<Img>)
    ensures BadgeNumber(item).Some? ==> ShowsDot(item).None? && AttributedTitle(item).None?
    ensures ShowsDot(item).Some? ==> AttributedTitle(item).None?
    ensures !(Title(item).Some? && AttributedTitle(item).Some?)
  {
  }

  /** Every item has something to draw: a plain title, an attributed title,
      or (for `.image`) an image payload only. */
  lemma EveryItemHasContent<Img>(item: ItemOf<Img>)
    ensures Title(item).Some? || AttributedTitle(item).Some? || item.ImageItem?
    ensures Title(item).None? ==> (item.ImageItem? <==> AttributedTitle(item).None?)
  {
  }

  /** The accessors tell the kinds apart: two items of different kinds differ
      in which accessors are present. */
  lemma AccessorsDetermineKind<Img>(a: ItemOf<Img>, b: ItemOf<Img>)
    requires Title(a).Some? == Title(b).Some?
    requires HasImage(a) == HasImage(b)
    requires BadgeNumber(a).Some? == BadgeNumber(b).Some?
    requires ShowsDot(a).Some? == ShowsDot(b).Some?
    requires AttributedTitle(a).Some? == AttributedTitle(b).Some?
    ensures KindOf(a) == KindOf(b)
  {
  }
}
