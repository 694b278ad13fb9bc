/** The data source that turns a list of item descriptors into per-cell item
    models: which model class and which cell each kind gets, how a model is
    filled in for its index (selected or not), how a selection switch and a
    scroll-driven transition update the current values, and the small rules
    that derive a value from the data source's settings. */
module ItemDataSource {
  import opened Wrappers
  import opened UIValues
  import opened SegmentedItem
  import opened TitleItemModel
  import Decimal

  /** The optional per-index configuration delegate: when present it supplies
      the title settings of each index in place of the data source's own. */
  datatype Configuration = Configuration(
    titleNumberOfLines: int -> int,
    titleNormalColor: int -> Color,
    titleSelectedColor: int -> Color,
    titleNormalFont: int -> Font,
    titleSelectedFont: int -> Option<Font>)

  /** The layout engine's text measurement, left uninterpreted: the width of a
      plain string in a font, and the width of an attributed string. */
  datatype TextMeasure = TextMeasure(plain: (string, Font) -> real, attributed: AttributedString -> real)

  /** The cell classes registered with the collection view. */
  datatype CellClass = TitleCell | TitleImageCell | NumberCell | DotCell | TitleAttributeCell

  /** The model class instantiated for an item: it is the class that can hold
      the item's payload. */
  function ModelClassFor(item: Item): (c: ModelClass)
    ensures c == TitleModel <==> item.TitleItem?
    ensures c == TitleImageModel <==> HasImage(item)
    ensures c == NumberModel <==> BadgeNumber(item).Some?
    ensures c == DotModel <==> ShowsDot(item).Some?
    ensures c == TitleAttributeModel <==> AttributedTitle(item).Some?
  {
    match item
    case TitleItem(_) => TitleModel
    case ImageItem(_) => TitleImageModel
    case TitleImageItem(_, _) => TitleImageModel
    case TitleBadgeNumberItem(_, _) => NumberModel
    case TitleDotItem(_, _) => DotModel
    case AttributedTitleItem(_) => TitleAttributeModel
  }

  /** The reuse identifier a cell for the item is dequeued with. */
  function ReuseIdentifier(item: Item): string {
    match item
    case TitleItem(_) => "titleCell"
    case ImageItem(_) => "imageCell"
    case TitleImageItem(_, _) => "titleImageCell"
    case TitleBadgeNumberItem(_, _) => "numberCell"
    case TitleDotItem(_, _) => "dotCell"
    case AttributedTitleItem(_) => "titleAttributeCell"
  }

  /** The identifiers registered with the collection view, and the cell class of each. */
  const RegisteredCells: map<string, CellClass> := map[
    "titleCell" := TitleCell,
    "imageCell" := TitleImageCell,
    "titleImageCell" := TitleImageCell,
    "numberCell" := NumberCell,
    "dotCell" := DotCell,
    "titleAttributeCell" := TitleAttributeCell]

  /** The cell class that displays a model class. */
  function CellClassFor(c: ModelClass): CellClass {
    match c
    case TitleModel => TitleCell
    case TitleImageModel => TitleImageCell
    case NumberModel => NumberCell
    case DotModel => DotCell
    case TitleAttributeModel => TitleAttributeCell
  }

  /** Each kind has its own reuse identifier. */
  lemma ReuseIdentifierPerKind(a: Item, b: Item)
    ensures ReuseIdentifier(a) == ReuseIdentifier(b) <==> KindOf(a) == KindOf(b)
  {
  }

  /** Every identifier a cell is dequeued with was registered, with the cell
      class that displays the item's model class. */
  lemma ReuseIdentifierRegistered(item: Item)
    ensures ReuseIdentifier(item) in RegisteredCells
    ensures RegisteredCells[ReuseIdentifier(item)] == CellClassFor(ModelClassFor(item))
  {
  }

  /** `.image` and `.titleImage` share a cell class under distinct identifiers. */
  lemma ImageKindsShareCellClass(a: Item, b: Item)
    requires a.ImageItem? && b.TitleImageItem?
    ensures ReuseIdentifier(a) != ReuseIdentifier(b)
    ensures RegisteredCells[ReuseIdentifier(a)] == RegisteredCells[ReuseIdentifier(b)]
  {
  }

  /** The dot's corner radius: half the dot's height when the setting is the
      automatic sentinel, the setting itself otherwise. */
  function DotCornerRadius(configured: real, dotSize: Size): (r: real)
    ensures configured == AutomaticDimension ==> r * 2.0 == dotSize.height
    ensures configured != AutomaticDimension ==> r == configured
  {
    if configured == AutomaticDimension then dotSize.height / 2.0 else configured
  }

  /** For a dot of non-negative height the sentinel is always resolved: the
      radius is never the sentinel, so feeding it back in as the setting gives
      the same radius. */
  lemma DotCornerRadiusResolved(configured: real, dotSize: Size)
    requires dotSize.height >= 0.0
    ensures DotCornerRadius(configured, dotSize) != AutomaticDimension
    ensures DotCornerRadius(DotCornerRadius(configured, dotSize), dotSize) == DotCornerRadius(configured, dotSize)
  {
  }

  /** `imageSource?.url?.absoluteString`. */
  function ImageInfo(source: Option<Source>): Option<string> {
    match source
    case Some(s) => s.Url()
    case None => None
  }

  /** The models are distinct objects. */
  ghost predicate Distinct(models: seq<ItemModel>) {
    forall i, j :: 0 <= i < j < |models| ==> models[i] != models[j]
  }

  /** Exactly the selected index shows the selected look: the model at
      `selectedIndex` shows it, every other model shows the normal look. */
  ghost predicate SelectionShown(models: seq<ItemModel>, selectedIndex: int)
    reads models
  {
    forall i :: 0 <= i < |models| ==>
      (i == selectedIndex ==> models[i].ShowsSelected()) && (i != selectedIndex ==> models[i].ShowsNormal())
  }

  /** The data source's settings. The item layer only reads them; a client
      changes them by assigning a new value. */
  datatype Settings = Settings(
    /** The optional per-index configuration delegate. */
    configuration: Option<Configuration>,
    // Title settings.
    titleNumberOfLines: int,
    titleNormalColor: Color,
    titleSelectedColor: Color,
    titleNormalFont: Font,
    titleSelectedFont: Option<Font>,
    isTitleColorGradientEnabled: bool,
    isTitleZoomEnabled: bool,
    titleSelectedZoomScale: real,
    isTitleStrokeWidthEnabled: bool,
    titleSelectedStrokeWidth: real,
    isTitleMaskEnabled: bool,
    // Image settings.
    titleImageType: TitleImageType,
    loadImageClosure: Option<ImageLoader>,
    imageSize: Size,
    titleImageSpacing: real,
    isImageZoomEnabled: bool,
    imageSelectedZoomScale: real,
    // Badge-number settings.
    numberWidthIncrement: real,
    numberBackgroundColor: Color,
    numberTextColor: Color,
    numberFont: Font,
    numberOffset: Point,
    numberStringFormatter: Option<int -> string>,
    numberHeight: real,
    // Dot settings.
    dotSize: Size,
    dotCornerRadius: real,
    dotColor: Color,
    dotOffset: Point,
    // Settings of the base data source, read here.
    isItemTransitionEnabled: bool,
    isSelectedAnimable: bool)
  {
    // Per-index settings: the configuration's answer when there is one,
    // the data source's own setting otherwise.

    function InnerTitleNumberOfLines(index: int): (r: int)
      ensures configuration.None? ==> r == titleNumberOfLines
      ensures configuration.Some? ==> r == configuration.value.titleNumberOfLines(index)
    {
      match configuration
      case Some(c) => c.titleNumberOfLines(index)
      case None => titleNumberOfLines
    }

    function InnerTitleNormalColor(index: int): (r: Color)
      ensures configuration.None? ==> r == titleNormalColor
      ensures configuration.Some? ==> r == configuration.value.titleNormalColor(index)
    {
      match configuration
      case Some(c) => c.titleNormalColor(index)
      case None => titleNormalColor
    }

    function InnerTitleSelectedColor(index: int): (r: Color)
      ensures configuration.None? ==> r == titleSelectedColor
      ensures configuration.Some? ==> r == configuration.value.titleSelectedColor(index)
    {
      match configuration
      case Some(c) => c.titleSelectedColor(index)
      case None => titleSelectedColor
    }

    function InnerTitleNormalFont(index: int): (r: Font)
      ensures configuration.None? ==> r == titleNormalFont
      ensures configuration.Some? ==> r == configuration.value.titleNormalFont(index)
    {
      match configuration
      case Some(c) => c.titleNormalFont(index)
      case None => titleNormalFont
    }

    function InnerTitleSelectedFont(index: int): (r: Option<Font>)
      ensures configuration.None? ==> r == titleSelectedFont
      ensures configuration.Some? ==> r == configuration.value.titleSelectedFont(index)
    {
      match configuration
      case Some(c) => c.titleSelectedFont(index)
      case None => titleSelectedFont
    }

    /** The selected font a title model gets: the per-index selected font when
        there is one, the per-index normal font otherwise. */
    function SelectedFontAt(index: int): (f: Font)
      ensures InnerTitleSelectedFont(index).Some? ==> f == InnerTitleSelectedFont(index).value
      ensures InnerTitleSelectedFont(index).None? ==> f == InnerTitleNormalFont(index)
    {
      match InnerTitleSelectedFont(index)
      case Some(font) => font
      case None => InnerTitleNormalFont(index)
    }

    /** The font text widths are measured in: the selected font, or the normal
        one when no selected font is set (always the data source's own). */
    function MeasureFont(): Font {
      titleSelectedFont.UnwrapOr(titleNormalFont)
    }

    /** The badge text: the formatter's output when a formatter is set, and the
        decimal rendering of the number otherwise. */
    function NumberString(n: int): (r: string)
      ensures numberStringFormatter.Some? ==> r == numberStringFormatter.value(n)
      ensures numberStringFormatter.None? ==> Decimal.ParseInt(r) == Some(n)
    {
      match numberStringFormatter
      case Some(format) => format(n)
      case None => Decimal.DescriptionRoundTrip(n); Decimal.Description(n)
    }

    // Gates of the scroll-driven transition: a value is interpolated only
    // when both models have it, its own effect is enabled, and item
    // transitions are enabled.

    predicate TitleZoomAnimates(left: ModelClass, right: ModelClass) {
      left.IsTitleModel() && right.IsTitleModel() && isTitleZoomEnabled && isItemTransitionEnabled
    }

    predicate TitleStrokeAnimates(left: ModelClass, right: ModelClass) {
      left.IsTitleModel() && right.IsTitleModel() && isTitleStrokeWidthEnabled && isItemTransitionEnabled
    }

    predicate TitleColorAnimates(left: ModelClass, right: ModelClass) {
      left.IsTitleModel() && right.IsTitleModel() && isTitleColorGradientEnabled && isItemTransitionEnabled
    }

    predicate ImageZoomAnimates(left: ModelClass, right: ModelClass) {
      left == TitleImageModel && right == TitleImageModel && isImageZoomEnabled && isItemTransitionEnabled
    }
  }

  /** With no configuration, every per-index setting is the data source's
      own, and the selected font falls back to the normal font. */
  lemma UnconfiguredUsesGlobals(s: Settings, index: int)
    requires s.configuration.None?
    ensures s.InnerTitleNumberOfLines(index) == s.titleNumberOfLines
    ensures s.InnerTitleNormalColor(index) == s.titleNormalColor
    ensures s.InnerTitleSelectedColor(index) == s.titleSelectedColor
    ensures s.InnerTitleNormalFont(index) == s.titleNormalFont
    ensures s.InnerTitleSelectedFont(index) == s.titleSelectedFont
    ensures s.SelectedFontAt(index) == s.titleSelectedFont.UnwrapOr(s.titleNormalFont)
  {
  }

  /** With a configuration, the per-index title settings are the
      configuration's alone: two data sources that share it agree on them
      whatever their own title settings. */
  lemma ConfigurationOverridesSettings(s: Settings, t: Settings, index: int)
    requires s.configuration.Some? && t.configuration == s.configuration
    ensures s.InnerTitleNumberOfLines(index) == t.InnerTitleNumberOfLines(index)
    ensures s.InnerTitleNormalColor(index) == t.InnerTitleNormalColor(index)
    ensures s.InnerTitleSelectedColor(index) == t.InnerTitleSelectedColor(index)
    ensures s.InnerTitleNormalFont(index) == t.InnerTitleNormalFont(index)
    ensures s.SelectedFontAt(index) == t.SelectedFontAt(index)
  {
  }

  /** With no configuration, titles are measured in the font they are drawn
      in when selected. */
  lemma UnconfiguredMeasuresSelectedFont(s: Settings, index: int)
    requires s.configuration.None?
    ensures s.MeasureFont() == s.SelectedFontAt(index)
  {
  }

  // What each part of a refresh writes.

  /** The image fields hold the item's image and the image settings; the
      current image zoom is the selected one when selected, the normal one
      (1) otherwise. */
  predicate ImageSettingsApplied(f: ImageFields, s: Settings, image: KingfisherImage, layout: TitleImageType, selected: bool) {
    && f.normalImageInfo == ImageInfo(image.source)
    && f.selectedImageInfo.None?
    && f.imagePlaceholder == image.placeholder
    && f.titleImageType == layout
    && f.loadImageClosure == Some(s.loadImageClosure.UnwrapOr(KingfisherLoader))
    && f.imageSize == s.imageSize
    && f.isImageZoomEnabled == s.isImageZoomEnabled
    && f.imageNormalZoomScale == 1.0
    && f.imageSelectedZoomScale == s.imageSelectedZoomScale
    && f.titleImageSpacing == s.titleImageSpacing
    && f.imageCurrentZoomScale == (if selected then s.imageSelectedZoomScale else 1.0)
  }

  /** The badge fields hold the number, its text and the badge settings. */
  predicate NumberSettingsApplied(f: NumberFields, s: Settings, badgeNumber: int) {
    && f.number == badgeNumber
    && f.numberString == s.NumberString(badgeNumber)
    && f.numberTextColor == s.numberTextColor
    && f.numberBackgroundColor == s.numberBackgroundColor
    && f.numberOffset == s.numberOffset
    && f.numberWidthIncrement == s.numberWidthIncrement
    && f.numberHeight == s.numberHeight
    && f.numberFont == s.numberFont
  }

  /** The dot fields hold the dot's state and the dot settings, with the
      corner-radius sentinel resolved. */
  predicate DotSettingsApplied(f: DotFields, s: Settings, showsDot: bool) {
    && f.dotOffset == s.dotOffset
    && f.dotState == showsDot
    && f.dotColor == s.dotColor
    && f.dotSize == s.dotSize
    && f.dotCornerRadius == DotCornerRadius(s.dotCornerRadius, s.dotSize)
  }

  /** The title settings of `index`: per-index colours and fonts (the selected
      font falling back to the normal one), the effect switches, normal zoom
      1 and normal stroke 0, and the selected zoom and stroke. */
  predicate TitleSettingsApplied(m: ItemModel, s: Settings, index: int)
    reads m
  {
    && m.titleNumberOfLines == s.InnerTitleNumberOfLines(index)
    && m.isSelectedAnimable == s.isSelectedAnimable
    && m.titleNormalColor == s.InnerTitleNormalColor(index)
    && m.titleSelectedColor == Some(s.InnerTitleSelectedColor(index))
    && m.titleNormalFont == s.InnerTitleNormalFont(index)
    && m.titleSelectedFont == Some(s.SelectedFontAt(index))
    && m.isTitleZoomEnabled == s.isTitleZoomEnabled
    && m.isTitleStrokeWidthEnabled == s.isTitleStrokeWidthEnabled
    && m.isTitleMaskEnabled == s.isTitleMaskEnabled
    && m.titleNormalZoomScale == 1.0
    && m.titleSelectedZoomScale == s.titleSelectedZoomScale
    && m.titleNormalStrokeWidth == 0.0
    && m.titleSelectedStrokeWidth == s.titleSelectedStrokeWidth
  }

  /** The current title colour, zoom and stroke: the selected values when
      selected, the normal colour, zoom 1 and stroke 0 otherwise. */
  predicate TitleCurrentApplied(m: ItemModel, s: Settings, index: int, selected: bool)
    reads m
  {
    if selected then
      && m.titleCurrentColor == Some(s.InnerTitleSelectedColor(index))
      && m.titleCurrentZoomScale == s.titleSelectedZoomScale
      && m.titleCurrentStrokeWidth == s.titleSelectedStrokeWidth
    else
      && m.titleCurrentColor == Some(s.InnerTitleNormalColor(index))
      && m.titleCurrentZoomScale == 1.0
      && m.titleCurrentStrokeWidth == 0.0
  }

  /** The model's fixed selected and normal values are those of the settings
      (the values a refresh writes). */
  predicate LooksConfigured(m: ItemModel, s: Settings)
    reads m
  {
    && (m.cls.IsTitleModel() ==>
          && m.titleNormalZoomScale == 1.0 && m.titleSelectedZoomScale == s.titleSelectedZoomScale
          && m.titleNormalStrokeWidth == 0.0 && m.titleSelectedStrokeWidth == s.titleSelectedStrokeWidth)
    && (m.cls == TitleImageModel ==>
          m.image.imageNormalZoomScale == 1.0 && m.image.imageSelectedZoomScale == s.imageSelectedZoomScale)
  }

  /** What the kind-dependent part of a refresh writes: the title and its
      measured width (none, and width 0, for an image-only item), and the
      payload of the kind with that kind's settings (an attributed title
      also gets the data source's own line count, stated apart). */
  predicate ItemApplied(m: ItemModel, s: Settings, item: Item, selected: bool, measure: TextMeasure)
    reads m
  {
    match item
    case TitleItem(title) =>
      m.title == Some(title) && m.textWidth == measure.plain(title, s.MeasureFont())
    case ImageItem(image) =>
      && m.title.None? && m.textWidth == 0.0
      && ImageSettingsApplied(m.image, s, image, OnlyImage, selected)
    case TitleImageItem(title, image) =>
      && m.title == Some(title) && m.textWidth == measure.plain(title, s.MeasureFont())
      && ImageSettingsApplied(m.image, s, image, s.titleImageType, selected)
    case TitleBadgeNumberItem(title, badgeNumber) =>
      && m.title == Some(title) && m.textWidth == measure.plain(title, s.MeasureFont())
      && NumberSettingsApplied(m.badge, s, badgeNumber)
    case TitleDotItem(title, showsDot) =>
      && m.title == Some(title) && m.textWidth == measure.plain(title, s.MeasureFont())
      && DotSettingsApplied(m.dot, s, showsDot)
    case AttributedTitleItem(attributedTitle) =>
      && m.attributed == AttributedFields(Some(attributedTitle), None)
      && m.textWidth == measure.attributed(attributedTitle)
  }

  // The two parts of a refresh, each writing only its own fields.

  /** The image fields of a refresh. */
  method ApplyImageSettings(m: ItemModel, s: Settings, image: KingfisherImage, layout: TitleImageType, selected: bool)
    modifies m`image
    ensures ImageSettingsApplied(m.image, s, image, layout, selected)
  {
    var f := ImageFields(
      normalImageInfo := ImageInfo(image.source),
      selectedImageInfo := None,
      imagePlaceholder := image.placeholder,
      titleImageType := layout,
      loadImageClosure := Some(s.loadImageClosure.UnwrapOr(KingfisherLoader)),
      imageSize := s.imageSize,
      isImageZoomEnabled := s.isImageZoomEnabled,
      imageNormalZoomScale := 1.0,
      imageCurrentZoomScale := m.image.imageCurrentZoomScale,
      imageSelectedZoomScale := s.imageSelectedZoomScale,
      titleImageSpacing := s.titleImageSpacing);
    if selected {
      f := f.(imageCurrentZoomScale := f.imageSelectedZoomScale);
    } else {
      f := f.(imageCurrentZoomScale := f.imageNormalZoomScale);
    }
    m.image := f;
  }

  /** The part of a refresh that depends on the item's kind. */
  method ApplyItem(m: ItemModel, s: Settings, item: Item, selected: bool, measure: TextMeasure)
    modifies m`title, m`textWidth, m`titleNumberOfLines, m`image, m`badge, m`dot, m`attributed
    ensures ItemApplied(m, s, item, selected, measure)
    ensures item.AttributedTitleItem? ==> m.titleNumberOfLines == s.titleNumberOfLines
    ensures !item.AttributedTitleItem? ==> unchanged(m`titleNumberOfLines)
    ensures item.AttributedTitleItem? ==> unchanged(m`title)
    ensures !HasImage(item) ==> unchanged(m`image)
    ensures !item.TitleBadgeNumberItem? ==> unchanged(m`badge)
    ensures !item.TitleDotItem? ==> unchanged(m`dot)
    ensures !item.AttributedTitleItem? ==> unchanged(m`attributed)
  {
    match item {
      case TitleItem(title) =>
        m.title := Some(title);
        m.textWidth := measure.plain(title, s.MeasureFont());

      case ImageItem(image) =>
        m.title := None;
        m.textWidth := 0.0;
        ApplyImageSettings(m, s, image, OnlyImage, selected);

      case TitleImageItem(title, image) =>
        m.title := Some(title);
        m.textWidth := measure.plain(title, s.MeasureFont());
        ApplyImageSettings(m, s, image, s.titleImageType, selected);

      case TitleBadgeNumberItem(title, badgeNumber) =>
        m.title := Some(title);
        m.textWidth := measure.plain(title, s.MeasureFont());
        m.badge := NumberFields(
          number := badgeNumber,
          numberString := s.NumberString(badgeNumber),
          numberTextColor := s.numberTextColor,
          numberBackgroundColor := s.numberBackgroundColor,
          numberOffset := s.numberOffset,
          numberWidthIncrement := s.numberWidthIncrement,
          numberHeight := s.numberHeight,
          numberFont := s.numberFont);

      case TitleDotItem(title, showsDot) =>
        m.title := Some(title);
        m.textWidth := measure.plain(title, s.MeasureFont());
        m.dot := DotFields(
          dotOffset := s.dotOffset,
          dotState := showsDot,
          dotColor := s.dotColor,
          dotSize := s.dotSize,
          dotCornerRadius := DotCornerRadius(s.dotCornerRadius, s.dotSize));

      case AttributedTitleItem(attributedTitle) =>
        m.attributed := AttributedFields(attributedTitle := Some(attributedTitle), selectedAttributedTitle := None);
        m.textWidth := measure.attributed(attributedTitle);
        m.titleNumberOfLines := s.titleNumberOfLines;
    }
  }

  /** The per-index line count, colours and fonts of a title model, and its
      animation switch. */
  method ApplyTitleLook(m: ItemModel, s: Settings, index: int)
    modifies m`titleNumberOfLines, m`isSelectedAnimable, m`titleNormalColor, m`titleSelectedColor,
             m`titleNormalFont, m`titleSelectedFont
    ensures m.titleNumberOfLines == s.InnerTitleNumberOfLines(index)
    ensures m.isSelectedAnimable == s.isSelectedAnimable
    ensures m.titleNormalColor == s.InnerTitleNormalColor(index)
    ensures m.titleSelectedColor == Some(s.InnerTitleSelectedColor(index))
    ensures m.titleNormalFont == s.InnerTitleNormalFont(index)
    ensures m.titleSelectedFont == Some(s.SelectedFontAt(index))
  {
    m.titleNumberOfLines := s.InnerTitleNumberOfLines(index);
    m.isSelectedAnimable := s.isSelectedAnimable;
    m.titleNormalColor := s.InnerTitleNormalColor(index);
    m.titleSelectedColor := Some(s.InnerTitleSelectedColor(index));
    m.titleNormalFont := s.InnerTitleNormalFont(index);
    if s.InnerTitleSelectedFont(index).Some? {
      m.titleSelectedFont := s.InnerTitleSelectedFont(index);
    } else {
      m.titleSelectedFont := Some(s.InnerTitleNormalFont(index));
    }
  }

  /** The effect switches of a title model, and its normal and selected zoom
      and stroke. */
  method ApplyTitleEffects(m: ItemModel, s: Settings)
    modifies m`isTitleZoomEnabled, m`isTitleStrokeWidthEnabled, m`isTitleMaskEnabled,
             m`titleNormalZoomScale, m`titleSelectedZoomScale, m`titleSelectedStrokeWidth, m`titleNormalStrokeWidth
    ensures m.isTitleZoomEnabled == s.isTitleZoomEnabled
    ensures m.isTitleStrokeWidthEnabled == s.isTitleStrokeWidthEnabled
    ensures m.isTitleMaskEnabled == s.isTitleMaskEnabled
    ensures m.titleNormalZoomScale == 1.0 && m.titleSelectedZoomScale == s.titleSelectedZoomScale
    ensures m.titleNormalStrokeWidth == 0.0 && m.titleSelectedStrokeWidth == s.titleSelectedStrokeWidth
  {
    m.isTitleZoomEnabled := s.isTitleZoomEnabled;
    m.isTitleStrokeWidthEnabled := s.isTitleStrokeWidthEnabled;
    m.isTitleMaskEnabled := s.isTitleMaskEnabled;
    m.titleNormalZoomScale := 1.0;
    m.titleSelectedZoomScale := s.titleSelectedZoomScale;
    m.titleSelectedStrokeWidth := s.titleSelectedStrokeWidth;
    m.titleNormalStrokeWidth := 0.0;
  }

  /** The current title values of a refresh, for title models. */
  method ApplyTitleCurrent(m: ItemModel, s: Settings, index: int, selected: bool)
    modifies m`titleCurrentColor, m`titleCurrentZoomScale, m`titleCurrentStrokeWidth
    ensures TitleCurrentApplied(m, s, index, selected)
  {
    if selected {
      m.titleCurrentColor := Some(s.InnerTitleSelectedColor(index));
      m.titleCurrentZoomScale := s.titleSelectedZoomScale;
      m.titleCurrentStrokeWidth := s.titleSelectedStrokeWidth;
    } else {
      m.titleCurrentColor := Some(s.InnerTitleNormalColor(index));
      m.titleCurrentZoomScale := 1.0;
      m.titleCurrentStrokeWidth := 0.0;
    }
  }

  /** The title part of a refresh, for title models: it writes the title
      settings and the current values, and no field of the kind-dependent part. */
  method ApplyTitleSettings(m: ItemModel, s: Settings, index: int, selected: bool)
    modifies m
    ensures TitleSettingsApplied(m, s, index)
    ensures TitleCurrentApplied(m, s, index, selected)
    ensures unchanged(m`title, m`textWidth, m`image, m`badge, m`dot, m`attributed, m`indicatorConvertToItemFrame)
  {
    ApplyTitleLook(m, s, index);
    ApplyTitleEffects(m, s);
    ApplyTitleCurrent(m, s, index, selected);
  }

  /** What a reload leaves in the model of one item: the item's model class
      and title, the settings' fixed looks, and the selected look when
      `selected`, the normal one otherwise. */
  ghost predicate Reloaded(m: ItemModel, item: Item, s: Settings, selected: bool)
    reads m
  {
    && m.cls == ModelClassFor(item) && m.title == Title(item) && LooksConfigured(m, s)
    && (selected ==> m.ShowsSelected()) && (!selected ==> m.ShowsNormal())
  }

  /** The program's selection switch updates the title values of two models
      only when both are title models, and the image zoom only when both are
      title-image models: it moves the whole look of both models exactly when
      they agree on each of the two. */
  predicate SwitchesTogether(current: ModelClass, will: ModelClass) {
    && current.IsTitleModel() == will.IsTitleModel()
    && (current == TitleImageModel) == (will == TitleImageModel)
  }

  /** Two models of one class switch together, and so do any two of the
      title, badge-number and dot models; a title-image or attributed-title
      model paired with a model of another class does not. */
  lemma SwitchesTogetherPairs(current: ModelClass, will: ModelClass)
    ensures current == will ==> SwitchesTogether(current, will)
    ensures current in {TitleModel, NumberModel, DotModel} && will in {TitleModel, NumberModel, DotModel} ==>
              SwitchesTogether(current, will)
    ensures current != will && (current in {TitleImageModel, TitleAttributeModel} || will in {TitleImageModel, TitleAttributeModel}) ==>
              !SwitchesTogether(current, will)
  {
  }

  /** A selection switch changed nothing in `m` but its look: the current
      title colour, zoom and stroke, the indicator frame and the current
      image zoom. Every other field keeps its value. */
  twostate predicate OnlyLookSwitched(m: ItemModel)
    reads m
  {
    && m.isSelectedAnimable == old(m.isSelectedAnimable)
    && m.title == old(m.title)
    && m.titleNumberOfLines == old(m.titleNumberOfLines)
    && m.titleNormalColor == old(m.titleNormalColor)
    && m.titleSelectedColor == old(m.titleSelectedColor)
    && m.titleNormalFont == old(m.titleNormalFont)
    && m.titleSelectedFont == old(m.titleSelectedFont)
    && m.isTitleZoomEnabled == old(m.isTitleZoomEnabled)
    && m.titleNormalZoomScale == old(m.titleNormalZoomScale)
    && m.titleSelectedZoomScale == old(m.titleSelectedZoomScale)
    && m.isTitleStrokeWidthEnabled == old(m.isTitleStrokeWidthEnabled)
    && m.titleNormalStrokeWidth == old(m.titleNormalStrokeWidth)
    && m.titleSelectedStrokeWidth == old(m.titleSelectedStrokeWidth)
    && m.isTitleMaskEnabled == old(m.isTitleMaskEnabled)
    && m.textWidth == old(m.textWidth)
    && m.image == old(m.image).(imageCurrentZoomScale := m.image.imageCurrentZoomScale)
    && m.badge == old(m.badge)
    && m.dot == old(m.dot)
    && m.attributed == old(m.attributed)
  }

  // The four values a scroll-driven transition interpolates. Each moves the
  // right model from its normal towards its selected value and the left one
  // back, `percent` of the way; the interpolation is a parameter.

  method InterpolateTitleZoom(left: ItemModel, right: ItemModel, percent: real, interpolate: (real, real, real) -> real)
    modifies left`titleCurrentZoomScale, right`titleCurrentZoomScale
    ensures right.titleCurrentZoomScale == interpolate(right.titleNormalZoomScale, right.titleSelectedZoomScale, percent)
    ensures left != right ==>
              left.titleCurrentZoomScale == interpolate(left.titleSelectedZoomScale, left.titleNormalZoomScale, percent)
  {
    left.titleCurrentZoomScale := interpolate(left.titleSelectedZoomScale, left.titleNormalZoomScale, percent);
    right.titleCurrentZoomScale := interpolate(right.titleNormalZoomScale, right.titleSelectedZoomScale, percent);
  }

  method InterpolateTitleStroke(left: ItemModel, right: ItemModel, percent: real, interpolate: (real, real, real) -> real)
    modifies left`titleCurrentStrokeWidth, right`titleCurrentStrokeWidth
    ensures right.titleCurrentStrokeWidth == interpolate(right.titleNormalStrokeWidth, right.titleSelectedStrokeWidth, percent)
    ensures left != right ==>
              left.titleCurrentStrokeWidth == interpolate(left.titleSelectedStrokeWidth, left.titleNormalStrokeWidth, percent)
  {
    left.titleCurrentStrokeWidth := interpolate(left.titleSelectedStrokeWidth, left.titleNormalStrokeWidth, percent);
    right.titleCurrentStrokeWidth := interpolate(right.titleNormalStrokeWidth, right.titleSelectedStrokeWidth, percent);
  }

  method InterpolateTitleColor(left: ItemModel, right: ItemModel, percent: real,
                               interpolateColor: (Option<Color>, Option<Color>, real) -> Color)
    modifies left`titleCurrentColor, right`titleCurrentColor
    ensures right.titleCurrentColor == Some(interpolateColor(Some(right.titleNormalColor), right.titleSelectedColor, percent))
    ensures left != right ==>
              left.titleCurrentColor == Some(interpolateColor(left.titleSelectedColor, Some(left.titleNormalColor), percent))
  {
    left.titleCurrentColor := Some(interpolateColor(left.titleSelectedColor, Some(left.titleNormalColor), percent));
    right.titleCurrentColor := Some(interpolateColor(Some(right.titleNormalColor), right.titleSelectedColor, percent));
  }

  /** The image zoom runs between 1 and the data source's selected scale,
      not the models' own scales. */
  method InterpolateImageZoom(left: ItemModel, right: ItemModel, percent: real, interpolate: (real, real, real) -> real,
                              selectedZoomScale: real)
    modifies left`image, right`image
    ensures right.image == old(right.image).(imageCurrentZoomScale := interpolate(1.0, selectedZoomScale, percent))
    ensures left != right ==>
              left.image == old(left.image).(imageCurrentZoomScale := interpolate(selectedZoomScale, 1.0, percent))
  {
    left.image := left.image.(imageCurrentZoomScale := interpolate(selectedZoomScale, 1.0, percent));
    right.image := right.image.(imageCurrentZoomScale := interpolate(1.0, selectedZoomScale, percent));
  }

  class ItemDataSource {
    var items: seq<Item>
    var settings: Settings

    /** A data source with the documented default settings, no items and no
        configuration. */
    constructor (isItemTransitionEnabled: bool, isSelectedAnimable: bool)
      ensures items == [] && settings.configuration.None?
      ensures settings.titleNumberOfLines == 1 && settings.titleNormalColor == Black
      ensures settings.titleSelectedColor == Red && settings.titleNormalFont == SystemFont(15.0)
      ensures settings.titleSelectedFont.None? && !settings.isTitleColorGradientEnabled
      ensures !settings.isTitleZoomEnabled && settings.titleSelectedZoomScale == 1.2
      ensures !settings.isTitleStrokeWidthEnabled && settings.titleSelectedStrokeWidth == -2.0
      ensures !settings.isTitleMaskEnabled
      ensures settings.titleImageType == RightImage && settings.loadImageClosure.None?
      ensures settings.imageSize == Size(20.0, 20.0) && settings.titleImageSpacing == 5.0
      ensures !settings.isImageZoomEnabled && settings.imageSelectedZoomScale == 1.2
      ensures settings.numberWidthIncrement == 10.0 && settings.numberBackgroundColor == Red
      ensures settings.numberTextColor == White && settings.numberFont == SystemFont(11.0)
      ensures settings.numberOffset == ZeroPoint && settings.numberStringFormatter.None?
      ensures settings.numberHeight == 14.0
      ensures settings.dotSize == Size(10.0, 10.0) && settings.dotCornerRadius == AutomaticDimension
      ensures settings.dotColor == Red && settings.dotOffset == ZeroPoint
      ensures settings.isItemTransitionEnabled == isItemTransitionEnabled
      ensures settings.isSelectedAnimable == isSelectedAnimable
    {
      items := [];
      settings := Settings(
        configuration := None,
        titleNumberOfLines := 1,
        titleNormalColor := Black,
        titleSelectedColor := Red,
        titleNormalFont := SystemFont(15.0),
        titleSelectedFont := None,
        isTitleColorGradientEnabled := false,
        isTitleZoomEnabled := false,
        titleSelectedZoomScale := 1.2,
        isTitleStrokeWidthEnabled := false,
        titleSelectedStrokeWidth := -2.0,
        isTitleMaskEnabled := false,
        titleImageType := RightImage,
        loadImageClosure := None,
        imageSize := Size(20.0, 20.0),
        titleImageSpacing := 5.0,
        isImageZoomEnabled := false,
        imageSelectedZoomScale := 1.2,
        numberWidthIncrement := 10.0,
        numberBackgroundColor := Red,
        numberTextColor := White,
        numberFont := SystemFont(11.0),
        numberOffset := ZeroPoint,
        numberStringFormatter := None,
        numberHeight := 14.0,
        dotSize := Size(10.0, 10.0),
        dotCornerRadius := AutomaticDimension,
        dotColor := Red,
        dotOffset := ZeroPoint,
        isItemTransitionEnabled := isItemTransitionEnabled,
        isSelectedAnimable := isSelectedAnimable);
    }

    /** One cell per item. */
    function PreferredItemCount(): (n: int)
      reads this
      ensures n == |items|
    {
      |items|
    }

    /** A fresh model of the class that holds the item at `index`. */
    method PreferredItemModelInstance(index: int) returns (m: ItemModel)
      requires 0 <= index < |items|
      ensures fresh(m) && m.cls == ModelClassFor(items[index]) && m.title.None?
      ensures m.cls.IsTitleModel() ==> m.HasTitleDefaults()
    {
      m := new ItemModel(ModelClassFor(items[index]));
    }

    /** The identifier the cell at `index` is dequeued with. */
    function CellReuseIdentifier(index: int): (id: string)
      reads this
      requires 0 <= index < |items|
      ensures id in RegisteredCells && RegisteredCells[id] == CellClassFor(ModelClassFor(items[index]))
    {
      ReuseIdentifierRegistered(items[index]);
      ReuseIdentifier(items[index])
    }

    /** Fills in the model of the item at `index`, given the selected index. */
    method PreferredRefreshItemModel(m: ItemModel, index: int, selectedIndex: int, measure: TextMeasure)
      requires 0 <= index < |items|
      requires m.cls.IsKindOf(ModelClassFor(items[index]))
      modifies m
      // The kind-dependent part: title, width and the kind's payload.
      ensures ItemApplied(m, settings, items[index], index == selectedIndex, measure)
      ensures items[index].AttributedTitleItem? ==> m.titleNumberOfLines == settings.titleNumberOfLines
      ensures !HasImage(items[index]) ==> unchanged(m`image)
      ensures !items[index].TitleBadgeNumberItem? ==> unchanged(m`badge)
      ensures !items[index].TitleDotItem? ==> unchanged(m`dot)
      ensures !items[index].AttributedTitleItem? ==> unchanged(m`attributed)
      // Title settings, for every title model; the current values are the
      // selected ones exactly at the selected index.
      ensures m.cls.IsTitleModel() ==>
                && TitleSettingsApplied(m, settings, index)
                && TitleCurrentApplied(m, settings, index, index == selectedIndex)
      ensures !m.cls.IsTitleModel() ==>
                unchanged(m`isSelectedAnimable, m`title, m`titleNormalColor, m`titleCurrentColor,
                          m`titleSelectedColor, m`titleNormalFont, m`titleSelectedFont, m`isTitleZoomEnabled,
                          m`titleNormalZoomScale, m`titleCurrentZoomScale, m`titleSelectedZoomScale,
                          m`isTitleStrokeWidthEnabled, m`titleNormalStrokeWidth, m`titleCurrentStrokeWidth,
                          m`titleSelectedStrokeWidth, m`isTitleMaskEnabled)
      ensures unchanged(m`indicatorConvertToItemFrame)
      // In sum: a model of the item's own class shows the selected look
      // exactly at the selected index.
      ensures m.cls == ModelClassFor(items[index]) ==>
                && LooksConfigured(m, settings)
                && (index == selectedIndex ==> m.ShowsSelected())
                && (index != selectedIndex ==> m.ShowsNormal())
    {
      ApplyItem(m, settings, items[index], index == selectedIndex, measure);
      if m.cls.IsTitleModel() {
        ApplyTitleSettings(m, settings, index, index == selectedIndex);
      }
    }

    /** The scroll-driven transition between the models left and right of the
        scroll position, `percent` of the way from left to right. The
        interpolation functions are parameters. */
    method RefreshItemModelForPercent(left: ItemModel, right: ItemModel, percent: real,
                                      interpolate: (real, real, real) -> real,
                                      interpolateColor: (Option<Color>, Option<Color>, real) -> Color)
      modifies left`titleCurrentZoomScale, left`titleCurrentStrokeWidth, left`titleCurrentColor, left`image
      modifies right`titleCurrentZoomScale, right`titleCurrentStrokeWidth, right`titleCurrentColor, right`image
      ensures settings.TitleZoomAnimates(left.cls, right.cls) ==>
                && right.titleCurrentZoomScale == interpolate(right.titleNormalZoomScale, right.titleSelectedZoomScale, percent)
                && (left != right ==>
                      left.titleCurrentZoomScale == interpolate(left.titleSelectedZoomScale, left.titleNormalZoomScale, percent))
      ensures !settings.TitleZoomAnimates(left.cls, right.cls) ==>
                unchanged(left`titleCurrentZoomScale, right`titleCurrentZoomScale)
      ensures settings.TitleStrokeAnimates(left.cls, right.cls) ==>
                && right.titleCurrentStrokeWidth == interpolate(right.titleNormalStrokeWidth, right.titleSelectedStrokeWidth, percent)
                && (left != right ==>
                      left.titleCurrentStrokeWidth == interpolate(left.titleSelectedStrokeWidth, left.titleNormalStrokeWidth, percent))
      ensures !settings.TitleStrokeAnimates(left.cls, right.cls) ==>
                unchanged(left`titleCurrentStrokeWidth, right`titleCurrentStrokeWidth)
      ensures settings.TitleColorAnimates(left.cls, right.cls) ==>
                && right.titleCurrentColor == Some(interpolateColor(Some(right.titleNormalColor), right.titleSelectedColor, percent))
                && (left != right ==>
                      left.titleCurrentColor == Some(interpolateColor(left.titleSelectedColor, Some(left.titleNormalColor), percent)))
      ensures !settings.TitleColorAnimates(left.cls, right.cls) ==>
                unchanged(left`titleCurrentColor, right`titleCurrentColor)
      ensures settings.ImageZoomAnimates(left.cls, right.cls) ==>
                && right.image == old(right.image).(imageCurrentZoomScale := interpolate(1.0, settings.imageSelectedZoomScale, percent))
                && (left != right ==>
                      left.image == old(left.image).(imageCurrentZoomScale := interpolate(settings.imageSelectedZoomScale, 1.0, percent)))
      ensures !settings.ImageZoomAnimates(left.cls, right.cls) ==>
                unchanged(left`image, right`image)
    {
      var s := settings;
      if left.cls.IsTitleModel() && right.cls.IsTitleModel() {
        if s.isTitleZoomEnabled && s.isItemTransitionEnabled {
          InterpolateTitleZoom(left, right, percent, interpolate);
        }
        if s.isTitleStrokeWidthEnabled && s.isItemTransitionEnabled {
          InterpolateTitleStroke(left, right, percent, interpolate);
        }
        if s.isTitleColorGradientEnabled && s.isItemTransitionEnabled {
          InterpolateTitleColor(left, right, percent, interpolateColor);
        }
      }
      if left.cls == TitleImageModel && right.cls == TitleImageModel {
        if s.isImageZoomEnabled && s.isItemTransitionEnabled {
          InterpolateImageZoom(left, right, percent, interpolate, s.imageSelectedZoomScale);
        }
      }
    }

    /** The selection switch from the `current` model to the `will` model, as
        written: the title values are updated only when both are title models,
        the image zoom only when both are title-image models. */
    method RefreshItemModelForSelection(current: ItemModel, will: ItemModel)
      modifies current`titleCurrentColor, current`titleCurrentZoomScale, current`titleCurrentStrokeWidth,
               current`indicatorConvertToItemFrame, current`image
      modifies will`titleCurrentColor, will`titleCurrentZoomScale, will`titleCurrentStrokeWidth, will`image
      ensures current.cls.IsTitleModel() && will.cls.IsTitleModel() ==>
                && will.titleCurrentColor == will.titleSelectedColor
                && will.titleCurrentZoomScale == will.titleSelectedZoomScale
                && will.titleCurrentStrokeWidth == will.titleSelectedStrokeWidth
                && current.indicatorConvertToItemFrame == ZeroRect
                && (current != will ==>
                      && current.titleCurrentColor == Some(current.titleNormalColor)
                      && current.titleCurrentZoomScale == current.titleNormalZoomScale
                      && current.titleCurrentStrokeWidth == current.titleNormalStrokeWidth)
      ensures !(current.cls.IsTitleModel() && will.cls.IsTitleModel()) ==>
                unchanged(current`titleCurrentColor, current`titleCurrentZoomScale, current`titleCurrentStrokeWidth,
                          current`indicatorConvertToItemFrame,
                          will`titleCurrentColor, will`titleCurrentZoomScale, will`titleCurrentStrokeWidth)
      ensures current.cls == TitleImageModel && will.cls == TitleImageModel ==>
                && will.image == old(will.image).(imageCurrentZoomScale := old(will.image).imageSelectedZoomScale)
                && (current != will ==>
                      current.image == old(current.image).(imageCurrentZoomScale := old(current.image).imageNormalZoomScale))
      ensures !(current.cls == TitleImageModel && will.cls == TitleImageModel) ==>
                unchanged(current`image, will`image)
      ensures SwitchesTogether(current.cls, will.cls) ==>
                will.ShowsSelected() && (current != will ==> current.ShowsNormal())
    {
      if current.cls.IsTitleModel() && will.cls.IsTitleModel() {
        current.titleCurrentColor := Some(current.titleNormalColor);
        current.titleCurrentZoomScale := current.titleNormalZoomScale;
        current.titleCurrentStrokeWidth := current.titleNormalStrokeWidth;
        current.indicatorConvertToItemFrame := ZeroRect;

        will.titleCurrentColor := will.titleSelectedColor;
        will.titleCurrentZoomScale := will.titleSelectedZoomScale;
        will.titleCurrentStrokeWidth := will.titleSelectedStrokeWidth;
      }
      if current.cls == TitleImageModel && will.cls == TitleImageModel {
        current.image := current.image.(imageCurrentZoomScale := current.image.imageNormalZoomScale);
        will.image := will.image.(imageCurrentZoomScale := will.image.imageSelectedZoomScale);
      }
    }

    /** The selection switch with each model updated according to its own
        class: the old model is reset to its normal look and the new one takes
        its selected look, whatever the other one is. */
    method RefreshItemModelForSelectionPerModel(current: ItemModel, will: ItemModel)
      modifies current`titleCurrentColor, current`titleCurrentZoomScale, current`titleCurrentStrokeWidth,
               current`indicatorConvertToItemFrame, current`image
      modifies will`titleCurrentColor, will`titleCurrentZoomScale, will`titleCurrentStrokeWidth, will`image
      ensures will.ShowsSelected()
      ensures current != will ==> current.ShowsNormal()
      ensures current.cls.IsTitleModel() ==> current.indicatorConvertToItemFrame == ZeroRect
      ensures !current.cls.IsTitleModel() ==>
                unchanged(current`indicatorConvertToItemFrame,
                          current`titleCurrentColor, current`titleCurrentZoomScale, current`titleCurrentStrokeWidth)
      ensures !will.cls.IsTitleModel() ==>
                unchanged(will`titleCurrentColor, will`titleCurrentZoomScale, will`titleCurrentStrokeWidth)
      // Of the image record only the current zoom changes.
      ensures will.cls == TitleImageModel ==>
                will.image == old(will.image).(imageCurrentZoomScale := old(will.image).imageSelectedZoomScale)
      ensures current.cls == TitleImageModel && current != will ==>
                current.image == old(current.image).(imageCurrentZoomScale := old(current.image).imageNormalZoomScale)
      ensures current.cls != TitleImageModel ==> unchanged(current`image)
      ensures will.cls != TitleImageModel ==> unchanged(will`image)
    {
      if current.cls.IsTitleModel() {
        current.titleCurrentColor := Some(current.titleNormalColor);
        current.titleCurrentZoomScale := current.titleNormalZoomScale;
        current.titleCurrentStrokeWidth := current.titleNormalStrokeWidth;
        current.indicatorConvertToItemFrame := ZeroRect;
      }
      if will.cls.IsTitleModel() {
        will.titleCurrentColor := will.titleSelectedColor;
        will.titleCurrentZoomScale := will.titleSelectedZoomScale;
        will.titleCurrentStrokeWidth := will.titleSelectedStrokeWidth;
      }
      if current.cls == TitleImageModel {
        current.image := current.image.(imageCurrentZoomScale := current.image.imageNormalZoomScale);
      }
      if will.cls == TitleImageModel {
        will.image := will.image.(imageCurrentZoomScale := will.image.imageSelectedZoomScale);
      }
    }

    /** Builds one refreshed model per item, the way the base data source
        drives the two hooks above on a reload. */
    method ReloadItemModels(selectedIndex: int, measure: TextMeasure) returns (models: seq<ItemModel>)
      ensures |models| == |items| == PreferredItemCount()
      ensures forall i :: 0 <= i < |models| ==> fresh(models[i]) && models[i].cls == ModelClassFor(items[i])
      ensures Distinct(models)
      ensures forall i :: 0 <= i < |models| ==> models[i].title == Title(items[i]) && LooksConfigured(models[i], settings)
      ensures SelectionShown(models, selectedIndex)
    {
      models := [];
      var i := 0;
      while i < |items|
        invariant 0 <= i <= |items| && |models| == i
        invariant forall k :: 0 <= k < i ==> fresh(models[k]) && Reloaded(models[k], items[k], settings, k == selectedIndex)
        invariant Distinct(models)
      {
        var m := PreferredItemModelInstance(i);
        PreferredRefreshItemModel(m, i, selectedIndex, measure);
        models := models + [m];
        i := i + 1;
      }
    }

    /** Switching the selection with the corrected switch keeps "exactly the
        selected index shows the selected look", whatever the kinds of the two
        items; of the two models only the current values and the frame change,
        and every other model is untouched. */
    method SwitchSelection(models: seq<ItemModel>, from: int, to: int)
      requires 0 <= from < |models| && 0 <= to < |models|
      requires Distinct(models)
      requires SelectionShown(models, from)
      modifies models[from], models[to]
      ensures SelectionShown(models, to)
      ensures OnlyLookSwitched(models[from]) && OnlyLookSwitched(models[to])
      // The old model's indicator frame is cleared when it is a title model;
      // the new model's is left alone.
      ensures models[from].cls.IsTitleModel() ==> models[from].indicatorConvertToItemFrame == ZeroRect
      ensures !models[from].cls.IsTitleModel() ==>
                models[from].indicatorConvertToItemFrame == old(models[from].indicatorConvertToItemFrame)
      ensures from != to ==> models[to].indicatorConvertToItemFrame == old(models[to].indicatorConvertToItemFrame)
      ensures forall k :: 0 <= k < |models| && k != from && k != to ==> unchanged(models[k])
    {
      RefreshItemModelForSelectionPerModel(models[from], models[to]);
    }

    /** The program's own switch, lifted to a list: it keeps "exactly the
        selected index shows the selected look" when the two models agree on
        being title models and on being title-image models, as for a title,
        badge or dot item in any combination (for a pair that disagrees see
        `MixedKindSwitchCounterexample`). */
    method SwitchSelectionAsWritten(models: seq<ItemModel>, from: int, to: int)
      requires 0 <= from < |models| && 0 <= to < |models|
      requires Distinct(models)
      requires SelectionShown(models, from)
      requires SwitchesTogether(models[from].cls, models[to].cls)
      modifies models[from], models[to]
      ensures SelectionShown(models, to)
      ensures OnlyLookSwitched(models[from]) && OnlyLookSwitched(models[to])
      ensures models[from].cls.IsTitleModel() ==> models[from].indicatorConvertToItemFrame == ZeroRect
      ensures !models[from].cls.IsTitleModel() ==>
                models[from].indicatorConvertToItemFrame == old(models[from].indicatorConvertToItemFrame)
      ensures from != to ==> models[to].indicatorConvertToItemFrame == old(models[to].indicatorConvertToItemFrame)
      ensures forall k :: 0 <= k < |models| && k != from && k != to ==> unchanged(models[k])
    {
      RefreshItemModelForSelection(models[from], models[to]);
    }
  }

  /** The switch as written misses a mixed-kind pair: with image zoom on,
      after selecting a title-and-image item and then the plain title item
      next to it, the new model shows selected while the old one keeps its
      selected image zoom instead of returning to the normal look. */
  method MixedKindSwitchCounterexample() returns (models: seq<ItemModel>)
    ensures |models| == 2
    ensures models[0].cls == TitleImageModel && models[1].cls == TitleModel
    ensures models[1].ShowsSelected() && !models[0].ShowsNormal()
    ensures models[0].image.isImageZoomEnabled
    ensures models[0].image.imageCurrentZoomScale == models[0].image.imageSelectedZoomScale != models[0].image.imageNormalZoomScale
  {
    var ds := new ItemDataSource(true, true);
    ds.items := [TitleImageItem("a", KingfisherImage(None, None)), TitleItem("b")];
    ds.settings := ds.settings.(isImageZoomEnabled := true);
    var measure := TextMeasure((s: string, f: Font) => 0.0, (a: AttributedString) => 0.0);
    var first := ds.PreferredItemModelInstance(0);
    ds.PreferredRefreshItemModel(first, 0, 0, measure);
    var second := ds.PreferredItemModelInstance(1);
    ds.PreferredRefreshItemModel(second, 1, 0, measure);
    ds.RefreshItemModelForSelection(first, second);
    models := [first, second];
  }
}
