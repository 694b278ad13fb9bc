/** The mutable per-cell item models the data source writes into.

    The item layer uses a small class hierarchy: a base model, the title model
    (JXSegmentedTitleItemModel) with its subclasses for title-and-image,
    badge-number and dot items, and a separate model for attributed titles.
    Here it is one class, `ItemModel`, whose constant `cls` says which class an
    instance was created as; it holds the fields of every class in the
    hierarchy, and a field of a class the instance is not is never read.
    The title model's own fields are fields of the class; the fields each
    subclass adds are held as one record per subclass, which a refresh
    replaces and a selection change updates one component of. */
module TitleItemModel {
  import opened Wrappers
  import opened UIValues
  import SegmentedItem

  /** The class an item model was created as. */
  datatype ModelClass = TitleModel | TitleImageModel | NumberModel | DotModel | TitleAttributeModel
  {
    /** Instances are title models (JXSegmentedTitleItemModel or a subclass of it). */
    predicate IsTitleModel() {
      !TitleAttributeModel?
    }

    /** A cast `as? target` (or `as! target`) of an instance of this class succeeds. */
    predicate IsKindOf(target: ModelClass) {
      this == target || (target == TitleModel && IsTitleModel())
    }
  }

  /** The fields the title-and-image model adds. */
  datatype ImageFields = ImageFields(
    normalImageInfo: Option<string>,
    selectedImageInfo: Option<string>,
    imagePlaceholder: Option<SegmentedItem.Placeholder>,
    titleImageType: TitleImageType,
    loadImageClosure: Option<ImageLoader>,
    imageSize: Size,
    isImageZoomEnabled: bool,
    imageNormalZoomScale: real,
    imageCurrentZoomScale: real,
    imageSelectedZoomScale: real,
    titleImageSpacing: real)

  /** The fields the badge-number model adds. */
  datatype NumberFields = NumberFields(
    number: int,
    numberString: string,
    numberTextColor: Color,
    numberBackgroundColor: Color,
    numberOffset: Point,
    numberWidthIncrement: real,
    numberHeight: real,
    numberFont: Font)

  /** The fields the dot model adds. */
  datatype DotFields = DotFields(dotOffset: Point, dotState: bool, dotColor: Color, dotSize: Size, dotCornerRadius: real)

  /** The fields the attributed-title model adds (it also has a line count
      and a text width, held in the fields of the same names below). */
  datatype AttributedFields = AttributedFields(
    attributedTitle: Option<SegmentedItem.AttributedString>,
    selectedAttributedTitle: Option<SegmentedItem.AttributedString>)

  class ItemModel {
    const cls: ModelClass

    // Base item model: the fields the item layer writes.
    var isSelectedAnimable: bool
    var indicatorConvertToItemFrame: Rect

    // Title model.
    var title: Option<string>
    var titleNumberOfLines: int
    var titleNormalColor: Color
    var titleCurrentColor: Option<Color>
    var titleSelectedColor: Option<Color>
    var titleNormalFont: Font
    var titleSelectedFont: Option<Font>
    var isTitleZoomEnabled: bool
    var titleNormalZoomScale: real
    var titleCurrentZoomScale: real
    var titleSelectedZoomScale: real
    var isTitleStrokeWidthEnabled: bool
    var titleNormalStrokeWidth: real
    var titleCurrentStrokeWidth: real
    var titleSelectedStrokeWidth: real
    var isTitleMaskEnabled: bool
    var textWidth: real

    // The fields of the title-and-image, badge-number, dot and
    // attributed-title subclasses, one record per subclass.
    var image: ImageFields
    var badge: NumberFields
    var dot: DotFields
    var attributed: AttributedFields

    /** The documented initial values of a title model's fields. */
    predicate HasTitleDefaults()
      reads this
    {
      && title.None?
      && titleNumberOfLines == 0
      && titleNormalColor == Label
      && titleCurrentColor.None?
      && titleSelectedColor.None?
      && titleNormalFont == SystemFont(15.0)
      && titleSelectedFont.None?
      && !isTitleZoomEnabled
      && titleNormalZoomScale == 0.0 && titleCurrentZoomScale == 0.0 && titleSelectedZoomScale == 0.0
      && !isTitleStrokeWidthEnabled
      && titleNormalStrokeWidth == 0.0 && titleCurrentStrokeWidth == 0.0 && titleSelectedStrokeWidth == 0.0
      && !isTitleMaskEnabled
      && textWidth == 0.0
    }

    /** A fresh model of class `cls`: it has no plain title, and a title model
        starts with the title model's defaults. The initial values of the
        fields that belong to the subclasses are not promised. */
    constructor (cls: ModelClass)
      ensures this.cls == cls && title.None?
      ensures cls.IsTitleModel() ==> HasTitleDefaults()
    {
      this.cls := cls;
      isSelectedAnimable := false;
      indicatorConvertToItemFrame := ZeroRect;
      title := None;
      titleNumberOfLines := 0;
      titleNormalColor := Label;
      titleCurrentColor := None;
      titleSelectedColor := None;
      titleNormalFont := SystemFont(15.0);
      titleSelectedFont := None;
      isTitleZoomEnabled := false;
      titleNormalZoomScale := 0.0;
      titleCurrentZoomScale := 0.0;
      titleSelectedZoomScale := 0.0;
      isTitleStrokeWidthEnabled := false;
      titleNormalStrokeWidth := 0.0;
      titleCurrentStrokeWidth := 0.0;
      titleSelectedStrokeWidth := 0.0;
      isTitleMaskEnabled := false;
      textWidth := 0.0;
      image := ImageFields(None, None, None, RightImage, None, Size(0.0, 0.0), false, 0.0, 0.0, 0.0, 0.0);
      badge := NumberFields(0, "", White, Red, ZeroPoint, 0.0, 0.0, SystemFont(11.0));
      dot := DotFields(ZeroPoint, false, Red, Size(0.0, 0.0), 0.0);
      attributed := AttributedFields(None, None);
    }

    /** The model shows its item as selected: its current title colour, zoom
        and stroke are the selected ones, and so is its image zoom when it has
        an image. Attributed-title models hold no such state. */
    predicate ShowsSelected()
      reads this
    {
      && (cls.IsTitleModel() ==>
            && titleCurrentColor == titleSelectedColor
            && titleCurrentZoomScale == titleSelectedZoomScale
            && titleCurrentStrokeWidth == titleSelectedStrokeWidth)
      && (cls == TitleImageModel ==> image.imageCurrentZoomScale == image.imageSelectedZoomScale)
    }

    /** The model shows its item as not selected: current values are the normal ones. */
    predicate ShowsNormal()
      reads this
    {
      && (cls.IsTitleModel() ==>
            && titleCurrentColor == Some(titleNormalColor)
            && titleCurrentZoomScale == titleNormalZoomScale
            && titleCurrentStrokeWidth == titleNormalStrokeWidth)
      && (cls == TitleImageModel ==> image.imageCurrentZoomScale == image.imageNormalZoomScale)
    }

    /** The selected and normal looks of a title model differ in some respect. */
    predicate HasDistinctSelectedLook()
      reads this
    {
      cls.IsTitleModel() &&
      (titleSelectedColor != Some(titleNormalColor)
       || titleSelectedZoomScale != titleNormalZoomScale
       || titleSelectedStrokeWidth != titleNormalStrokeWidth)
    }
  }

  /** When the selected look differs from the normal one, a model cannot show
      both: "selected" and "normal" are exclusive. */
  lemma SelectedExcludesNormal(m: ItemModel)
    requires m.HasDistinctSelectedLook()
    ensures !(m.ShowsSelected() && m.ShowsNormal())
  {
  }
}
