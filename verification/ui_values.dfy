/** Stand-ins for the UIKit and Core Graphics values the item layer copies
    around. None of them is computed with here: colours and fonts are tokens,
    geometry is plain reals. */
module UIValues {

  /** UIColor: the named system colours the defaults use, or any other colour. */
  datatype Color = Label | Black | Red | White | OtherColor(id: nat)

  /** UIFont: a system font of some point size, or any other font. */
  datatype Font = SystemFont(pointSize: real) | OtherFont(id: nat)

  datatype Size = Size(width: real, height: real)
  datatype Point = Point(x: real, y: real)
  datatype Rect = Rect(origin: Point, size: Size)

  const ZeroPoint := Point(0.0, 0.0)
  const ZeroRect := Rect(ZeroPoint, Size(0.0, 0.0))

  /** JXSegmentedViewAutomaticDimension: the sentinel "compute this value for me". */
  const AutomaticDimension: real := -1.0

  /** JXSegmentedTitleImageType: only the two layouts the item layer names
      are spelled out; the others are carried as an opaque tag. */
  datatype TitleImageType = RightImage | OnlyImage | OtherImageLayout(id: nat)

  /** The closure a title-image cell loads its image with: the Kingfisher
      default, or a closure supplied by the host app. */
  datatype ImageLoader = KingfisherLoader | CustomLoader(id: nat)
}
