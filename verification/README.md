# JXSegmentedView item layer, in Dafny

This project models the item layer of JXSegmentedView, a segmented control for
UIKit. A client describes the control's cells as a list of `JXSegmentedItem`
values. There are six kinds: title, image, title with image, title with badge
number, title with dot, and attributed title.

`JXSegmentedItemDataSource` turns that list into per-cell item models:
- it picks a model class and a cell reuse identifier for each kind;
- it fills each model in from the data source's settings, giving the item at
  the selected index its selected look and every other item its normal look;
- it resets the old model and promotes the new one when the selection
  changes;
- it moves the current values of two neighbouring models during a scroll,
  each value only when its own switch and item transitions are enabled.

The models are instances of `JXSegmentedTitleItemModel` and its subclasses.
Their fields are overwritten in place.

Modules:
- `Wrappers`: Swift optionals (`Option`, `??`).
- `UIValues`: tokens for colours, fonts, sizes, points, rectangles, the
  title/image layout, the image loader, and the automatic-dimension sentinel.
- `SegmentedItem`: the item enum and its accessors. The enum is generic in the
  image payload, so that the Kingfisher build and the plain build share one
  definition.
- `Decimal`: the text that `"\(n)"` gives for an `Int`, with a reader for it.
  It shows that the badge text round-trips.
- `TitleItemModel`: the item-model class hierarchy, as one class `ItemModel`
  with a constant `cls` naming the Swift class an instance was created as.
  - The title model's own fields are fields of the class, with their
    documented defaults.
  - The fields each subclass adds (title with image, badge number, dot,
    attributed title) are held as one record per subclass.
- `ItemDataSource`:
  - the settings, as one value `Settings`, with the per-index configuration
    fallbacks;
  - the kind-to-class and kind-to-identifier mappings;
  - the refresh, split into the kind-dependent part and the title part;
  - the two `refreshItemModel` overloads;
  - a reload driver and a selection switch over a whole list of models;
  - the class `ItemDataSource` holding `items` and `settings`.

The central property is that exactly the selected index shows the selected
look. `ReloadItemModels` establishes it. The program's own selection switch
keeps it when the old and the new model agree on being title models and on
being title-image models, as any two of the title, badge-number and dot
models do (`SwitchSelectionAsWritten`). A pair where exactly one is a
title-image model, or exactly one an attributed-title model, breaks it (see
"## Findings").
`SwitchSelection` uses the corrected switch, which keeps it for every pair.
Both switches change only the look of the two models involved: the current
values, the current image zoom, and the old model's indicator frame, which is
cleared when it is a title model. Every other model is left untouched.

## Model

| member | source | states |
|---|---|---|
| `SegmentedItem.Title` | Sources/Item/JXSegmentedItem.swift:27-47 | present exactly for the title, title-image, badge and dot kinds, and then it is the carried text |
| `SegmentedItem.ImageSource` | Sources/Item/JXSegmentedItem.swift:50-65 | the carried source for the image and title-image kinds, none for every other kind |
| `SegmentedItem.ImagePlaceholder` | Sources/Item/JXSegmentedItem.swift:67-82 | the carried placeholder for the image and title-image kinds, none otherwise |
| `SegmentedItem.Image` | Sources/Item/JXSegmentedItem.swift:85-100 | in the build without Kingfisher: the carried image for the two image kinds, none otherwise |
| `SegmentedItem.BadgeNumber` | Sources/Item/JXSegmentedItem.swift:103-118 | present exactly for the badge kind, and then it is the carried number |
| `SegmentedItem.ShowsDot` | Sources/Item/JXSegmentedItem.swift:120-135 | present exactly for the dot kind, and then it is the carried flag |
| `SegmentedItem.AttributedTitle` | Sources/Item/JXSegmentedItem.swift:137-152 | present exactly for the attributed kind, and then it is the carried string |
| `SegmentedItem.DecorationsExclusive` | Sources/Item/JXSegmentedItem.swift:103-152 | at most one of badge, dot and attributed title is present, and a plain and an attributed title never coexist |
| `SegmentedItem.EveryItemHasContent` | Sources/Item/JXSegmentedItem.swift:27-152 | every item has a plain title, an attributed title, or (the image kind only) neither |
| `SegmentedItem.AccessorsDetermineKind` | Sources/Item/JXSegmentedItem.swift:27-152 | two items that agree on which accessors are present are of the same kind |
| `TitleItemModel.ItemModel.constructor` | Sources/Title/JXSegmentedTitleItemModel.swift:11-29 | a fresh model has no plain title; a fresh title model also has no current/selected colour or selected font, 0 lines, the label colour, system font 15, all zooms and strokes 0, all switches off and text width 0 |
| `TitleItemModel.SelectedExcludesNormal` | Sources/Title/JXSegmentedTitleItemModel.swift:14-26 | a model whose selected look differs from its normal look cannot show both |
| `Decimal.DescriptionRoundTrip` | Sources/Item/JXSegmentedItemDataSource.swift:199 | reading back the decimal text of any `Int` gives the number again |
| `Decimal.DescriptionInjective` | Sources/Item/JXSegmentedItemDataSource.swift:199 | different numbers get different default badge texts |
| `ItemDataSource.ModelClassFor` | Sources/Item/JXSegmentedItemDataSource.swift:89-105 | title gives the title model, image and title-image give the title-image model, badge the number model, dot the dot model, attributed the attribute model, each in both directions |
| `ItemDataSource.ReuseIdentifierPerKind` | Sources/Item/JXSegmentedItemDataSource.swift:292-310 | two items share a reuse identifier exactly when they are of the same kind |
| `ItemDataSource.ReuseIdentifierRegistered` | Sources/Item/JXSegmentedItemDataSource.swift:283-310 | every identifier a cell is dequeued with is registered, with the cell class that displays the item's model class |
| `ItemDataSource.ImageKindsShareCellClass` | Sources/Item/JXSegmentedItemDataSource.swift:285-301 | the image and title-image kinds use distinct identifiers registered with the same cell class |
| `ItemDataSource.DotCornerRadius` | Sources/Item/JXSegmentedItemDataSource.swift:216-220 | for the automatic sentinel the radius is half the dot's height; otherwise it is the setting |
| `ItemDataSource.DotCornerRadiusResolved` | Sources/Item/JXSegmentedItemDataSource.swift:216-220 | for a dot of non-negative height the resolved radius is never the sentinel, so resolving it again changes nothing |
| `ItemDataSource.Settings.InnerTitleNumberOfLines` | Sources/Item/JXSegmentedItemDataSource.swift:362-368 | the configuration's line count for the index when there is a configuration, the data source's own otherwise |
| `ItemDataSource.Settings.InnerTitleNormalColor` | Sources/Item/JXSegmentedItemDataSource.swift:369-375 | the configuration's normal colour for the index, or the data source's own |
| `ItemDataSource.Settings.InnerTitleSelectedColor` | Sources/Item/JXSegmentedItemDataSource.swift:376-382 | the configuration's selected colour for the index, or the data source's own |
| `ItemDataSource.Settings.InnerTitleNormalFont` | Sources/Item/JXSegmentedItemDataSource.swift:383-389 | the configuration's normal font for the index, or the data source's own |
| `ItemDataSource.Settings.InnerTitleSelectedFont` | Sources/Item/JXSegmentedItemDataSource.swift:390-396 | the configuration's optional selected font for the index, or the data source's own |
| `ItemDataSource.Settings.SelectedFontAt` | Sources/Item/JXSegmentedItemDataSource.swift:236-240 | the per-index selected font when there is one, the per-index normal font otherwise |
| `ItemDataSource.Settings.NumberString` | Sources/Item/JXSegmentedItemDataSource.swift:196-200 | the formatter's output when a formatter is set; otherwise a text that reads back as the number |
| `ItemDataSource.UnconfiguredUsesGlobals` | Sources/Item/JXSegmentedItemDataSource.swift:360-396 | with no configuration every per-index getter gives the data source's own setting, and the selected font falls back to the normal font |
| `ItemDataSource.ConfigurationOverridesSettings` | Sources/Item/JXSegmentedItemDataSource.swift:360-396 | with a configuration the per-index title settings do not depend on the data source's own title settings |
| `ItemDataSource.UnconfiguredMeasuresSelectedFont` | Sources/Item/JXSegmentedItemDataSource.swift:146-149 | with no configuration, text width is measured in the font the title has when selected |
| `ItemDataSource.ApplyImageSettings` | Sources/Item/JXSegmentedItemDataSource.swift:151-169 | the image record holds the source's URL text, no selected image, the placeholder, the layout, the loader (Kingfisher's by default), the image settings, normal zoom 1, and current zoom equal to the selected zoom exactly when selected |
| `ItemDataSource.ApplyItem` | Sources/Item/JXSegmentedItemDataSource.swift:144-228 | each kind gets its title and measured width (none and 0 for an image), and only its own subclass's fields, from the settings; the attributed kind also gets the data source's own line count; nothing else is written |
| `ItemDataSource.ApplyTitleLook` | Sources/Item/JXSegmentedItemDataSource.swift:231-240 | line count, colours and fonts are the per-index ones, the selected font falling back to the normal one |
| `ItemDataSource.ApplyTitleEffects` | Sources/Item/JXSegmentedItemDataSource.swift:241-247 | the three effect switches are the settings'; normal zoom is 1 and normal stroke is 0; the selected zoom and stroke are the settings' |
| `ItemDataSource.ApplyTitleCurrent` | Sources/Item/JXSegmentedItemDataSource.swift:248-256 | when selected, the current colour, zoom and stroke are the selected ones; otherwise the normal colour, zoom 1 and stroke 0 |
| `ItemDataSource.ApplyTitleSettings` | Sources/Item/JXSegmentedItemDataSource.swift:230-257 | the title settings and current values for the index, with no field of the kind-dependent part touched |
| `ItemDataSource.InterpolateTitleZoom` | Sources/Item/JXSegmentedItemDataSource.swift:316-319 | the right model moves from normal towards selected zoom and the left one back, each from its own scales |
| `ItemDataSource.InterpolateTitleStroke` | Sources/Item/JXSegmentedItemDataSource.swift:321-324 | the same for the stroke width |
| `ItemDataSource.InterpolateTitleColor` | Sources/Item/JXSegmentedItemDataSource.swift:326-329 | the same for the title colour, through the colour interpolation |
| `ItemDataSource.InterpolateImageZoom` | Sources/Item/JXSegmentedItemDataSource.swift:332-337 | the image zoom moves between 1 and the data source's selected scale, not the models' own; nothing else in the image record changes |
| `ItemDataSource.ItemDataSource.constructor` | Sources/Item/JXSegmentedItemDataSource.swift:13-84 | no items, no configuration, and every documented default (1 line, black and red, system fonts 15 and 11, zoom 1.2, stroke -2, image 20x20 with spacing 5, badge increment 10 and height 14, dot 10x10 with the automatic radius) |
| `ItemDataSource.ItemDataSource.PreferredItemCount` | Sources/Item/JXSegmentedItemDataSource.swift:85-87 | one cell per item |
| `ItemDataSource.ItemDataSource.PreferredItemModelInstance` | Sources/Item/JXSegmentedItemDataSource.swift:89-105 | a fresh model of the class that holds the item's kind, with no plain title and, for a title model, the title model's defaults |
| `ItemDataSource.ItemDataSource.CellReuseIdentifier` | Sources/Item/JXSegmentedItemDataSource.swift:292-310 | a registered identifier whose cell class displays the item's model class |
| `ItemDataSource.ItemDataSource.PreferredRefreshItemModel` | Sources/Item/JXSegmentedItemDataSource.swift:142-258 | the kind-dependent part as `ApplyItem` states it and, for title models, the title part for the index; the fields of other kinds and the indicator frame are untouched; a model of the item's own class ends up showing the selected look at the selected index and the normal look elsewhere |
| `ItemDataSource.ItemDataSource.RefreshItemModelForPercent` | Sources/Item/JXSegmentedItemDataSource.swift:312-338 | each of title zoom, stroke, colour and image zoom is interpolated exactly when both models have it, its own switch is on and item transitions are on; otherwise it is left unchanged |
| `ItemDataSource.ItemDataSource.RefreshItemModelForSelection` | Sources/Item/JXSegmentedItemDataSource.swift:340-358 | as written: the title values switch only when both models are title models, the image zoom only when both are title-image models; for two models that agree on both, the new one shows selected and the old one normal |
| `ItemDataSource.ItemDataSource.RefreshItemModelForSelectionPerModel` | Sources/Item/JXSegmentedItemDataSource.swift:343-357 | each model is switched by its own class: the new one shows selected and the old one normal, whatever their kinds; of the image record only the current zoom changes, and a model that is not a title (or title-image) model keeps its current title values (or image record) |
| `ItemDataSource.ItemDataSource.ReloadItemModels` | Sources/Item/JXSegmentedItemDataSource.swift:85-258 | one fresh, distinct model per item, of the item's class and with its title, and exactly the selected index shows the selected look |
| `ItemDataSource.ItemDataSource.SwitchSelection` | Sources/Item/JXSegmentedItemDataSource.swift:340-358 | with the corrected switch, moving the selection keeps "exactly the selected index shows the selected look" for any two kinds; the two models keep every field but the current values, the frame and the current image zoom, the old model's frame is cleared when it is a title model and kept otherwise, and the new model's frame is kept; every other model is unchanged |
| `ItemDataSource.SwitchesTogetherPairs` | Sources/Item/JXSegmentedItemDataSource.swift:343-357 | two models of one class, or any two of the title, badge-number and dot models, are switched together by the program; a title-image or attributed-title model paired with another class is not |
| `ItemDataSource.ItemDataSource.SwitchSelectionAsWritten` | Sources/Item/JXSegmentedItemDataSource.swift:340-358 | with the program's own switch, the same holds when the two models agree on being title models and on being title-image models; the old title model's frame is cleared and the new model's frame is kept |
| `ItemDataSource.MixedKindSwitchCounterexample` | Sources/Item/JXSegmentedItemDataSource.swift:343-357 | after the switch as written from a title-image item to a title item, with image zoom on, the old model still has its selected image zoom |

## Left out

- Text measurement (`width(for:height:font:)`, `width(for:height:)`, lines 262-279) depends on the layout engine and `ceil`. It is a parameter (`TextMeasure`) and is never interpreted.
- `preferredSegmentedView(_:widthForItemAt:)` (lines 107-140) is not part of this model. It adds the base class's width increment to the item's width. That width is the title's measured width in the model's normal font for the title, badge and dot kinds, and the attributed string's measured width for the attributed kind. For the image kind it is the image width alone, with no text. For the title-image kind it is the title's width plus the model's title-image spacing plus the image width.
- Interpolation maths: `JXSegmentedViewTool.interpolate` and `interpolateThemeColor` are not part of this model. They are parameters, and only the gating and the arguments are modelled.
- Kingfisher image loading: the default `loadImageClosure` is the token `KingfisherLoader`. The `UIImageView.setImage` extension (lines 399-404) is not modelled.
- Collection-view plumbing: registering and dequeuing cells is reduced to the identifier mapping and the registered-identifier table.
- Base-class behaviour: `JXSegmentedBaseDataSource` and `JXSegmentedBaseItemModel` are not part of this model, so the `super` calls are left out. `isItemTransitionEnabled` and `isSelectedAnimable` are taken as settings, and of the base model's fields only `isSelectedAnimable` and `indicatorConvertToItemFrame`, the two this layer writes, are kept.
- The subclass model files are not part of this model. The initial values of their fields are not promised (a fresh attributed-title model is promised only that it has no plain title), and `JXSegmentedTitleAttributeItemModel` is taken to derive from the base model, not from the title model.
- The fields a subclass adds are held as one record per subclass. A refresh replaces that record in one assignment where Swift writes field by field; the end state is the same.
- `configuration` is a weak reference in Swift. It is an optional value here, so its lifetime is not modelled.
- `JXSegmentedViewAutomaticDimension` is declared outside the modelled files. It is taken as -1.
- Integers are unbounded (Swift's `Int` is 64-bit), and `CGFloat` is `real`.
- Traps: the force casts `as!` and `items[index]` out of range are preconditions rather than modelled crashes.
- `ItemDataSource.ItemDataSource.ReloadItemModels` is not in the source. It stands for the base class's reload, which is not part of this model.
- ReloadItemModels: states each model's class, title, fixed looks and selected/normal look, not every other field the refresh writes (`PreferredRefreshItemModel` states those).
- The `selectedType` argument of the selection switch is unused by the source and is left out.

## Findings

| source | as written | input that shows it | evidently intended | confidence | as-written member | corrected member |
|---|---|---|---|---|---|---|
| Sources/Item/JXSegmentedItemDataSource.swift:343-357 | the selection switch casts both models together: title values change only when both are title models, and the image zoom only when both are title-image models | items `[.titleImage("a", nil), .title("b")]` with image zoom enabled, selection moving from 0 to 1: the old model keeps its selected image zoom while the new one shows selected | each model is reset or promoted according to its own class | medium; not executed | `ItemDataSource.MixedKindSwitchCounterexample` | `ItemDataSource.ItemDataSource.RefreshItemModelForSelectionPerModel` |
