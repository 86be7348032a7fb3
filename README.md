# Parcel viewer core, modelled in Dafny

This project models the logic of a browser map viewer that shows cadastral (land-parcel)
vector tiles over a base map. Three pieces of the viewer's own code are modelled:

- **Popup placement** (`calculatePopupPosition`). Given a click point, a popup size and a
  viewport size, it picks the popup's top-left corner. Each axis is handled on its own: the
  popup goes at the click if it fits before the far edge. Otherwise it is shifted back by its
  own size and clamped at 0. The code keeps local variables that branches assign and a clamp
  overwrites, so it is modelled as a method. The method is proved equal to the per-axis
  function `AxisPlacement`, and lemmas state what that function guarantees.
- **The parcel popup** (`ParcelPopup`). This is pure. A gate decides whether anything shows:
  `visible` must hold and both `position` and `properties` must be present. The popup sits
  10 pixels right of and below its anchor. It shows one row per property entry, except the
  `geometry` and `layer` entries. A row's label is the key with every `_` turned into a space.
  Its value is the value's string form, or `N/A` when the value is null or undefined.
- **The parcel layer** (`CustomVectorTileLayer`). When the component mounts, it asks the tile
  server for its capabilities. From the answer it takes the first entry named
  `cadastral_parcels` and records that entry's first tile-URL template, if the entry has one.
  Once the shared map and a URL both exist, it adds one vector tile layer to the map. Its
  cleanup removes exactly that layer. The URL choice is a pure function. The component and
  the map are classes whose methods change their fields: the component holds `tileUrl`, the
  pending request and the pending cleanup, and the map holds its layer list.

Files: `types.dfy` (`Option`, `Position`), `popup_positioning.dfy`, `parcel_popup.dfy`,
`parcel_layer.dfy`.

Modelling choices:

- Coordinates and sizes are exact `real`s. JavaScript numbers are IEEE-754 doubles, so every
  sum and difference on coordinates (the room tests, the shift-back and the `+ 10` popup
  offsets) can round, and NaN or infinite inputs behave differently; the model leaves both
  out (see "## Left out").
- Property values are `Option<string>`. `None` stands for `null`/`undefined`, and `Some(s)`
  holds the result of `String(value)`. The entry list is the sequence `Object.entries` yields.
- The capabilities request is not performed. Its outcome is an input value: `Failed` stands for
  any exception (a rejected fetch, an unparsable body, a body without `maps`), `NotOk` for a
  non-ok status, and `Ok(maps)` for a parsed list.
- React's effect scheduling becomes explicit calls, as in a production build. The constructor
  is the mount, and it issues the one capabilities request (the effect has no dependencies).
  `ResolveCapabilities` is that request settling, so in a production build it happens once.
  `RunLayerEffect` is the layer effect, run with the map the context holds at that render.
  `RunLayerCleanup` is its cleanup, which React runs before each re-run and at unmount.
  StrictMode's extra development-time capabilities request is not modelled (see "## Left out").
- A layer is an object (`Layer`), so each `new VectorTileLayer(...)` is a fresh identity.
  `addLayer` appends to the map's layer list. `removeLayer` removes the first occurrence, as
  the map's layer collection does.
- The guard `if (!map || !tileUrl)` uses JavaScript truthiness, so an empty-string URL gets no
  layer. The model keeps this: an entry whose first template is `""` does record `""` as
  `tileUrl`, but `CanAttach` refuses it.

The viewer has no click handler, no selection state, no selection-dependent styling and no
parcel-detail fetch. The layer is built with one fixed style and no explicit stacking order
(`addLayer` simply puts it on top). The app that src/main.tsx and src/App.tsx mount renders
only `CustomVectorTileLayer` and `CustomMap`: it renders no `ParcelPopup` and never calls
`calculatePopupPosition`, so the worked examples use a 256 × 200 popup of their own choosing.
src/layers/CustomVectorTileLayer.tsx:2 (like src/components/CustomMap.tsx:6) imports
`useMapContext` from `context/mapContex`, which exports no such name; the hook lives in
src/hooks/useMapContext.ts. The model takes the map the hook would return as an input.

## Model

| member | source | states |
|---|---|---|
| `PopupPositioning.CalculatePopupPosition` | src/utils/popupPositioning.ts:13-52 | the result's x is `AxisPlacement` of the horizontal inputs and its y is `AxisPlacement` of the vertical inputs |
| `PopupPositioning.AxisCases` | src/utils/popupPositioning.ts:26-36 | the result is the click when `click + size <= limit`; otherwise it is `click - size`, or 0 when that is negative |
| `PopupPositioning.AxisNonNegative` | src/utils/popupPositioning.ts:31-35 | the shift-back branch never gives a negative value, and a non-negative click gives a non-negative result |
| `PopupPositioning.AxisWithinViewport` | src/utils/popupPositioning.ts:26-36 | if `0 <= size <= limit` and `0 <= click <= limit`, then `0 <= result <= limit - size` |
| `PopupPositioning.AxisNotPastClick` | src/utils/popupPositioning.ts:28-35 | for a non-negative size and click, the result never lies after the click |
| `PopupPositioning.AxisOversizedOverflows` | src/utils/popupPositioning.ts:29-35 | for a non-negative click and viewport size, when the popup is larger than the viewport, one clamp is all there is and the popup still runs past the far edge |
| `PopupPositioning.AxesIndependent` | src/utils/popupPositioning.ts:26-49 | x depends only on the horizontal inputs and y only on the vertical ones |
| `PopupPositioning.PositionWithinViewport` | src/utils/popupPositioning.ts:26-51 | the result is `AxisPlacement` on each axis, and a popup that fits, clicked inside the viewport, lies wholly inside it and not right of or below the click |
| `PopupPositioning.WorkedExamples` | src/utils/popupPositioning.ts:26-51 | with a 256×200 popup in a 1000×800 viewport: click (900,100) gives (644,100), click (10,750) gives (10,550), click (10,10) gives (10,10) |
| `ParcelPopup.Render` | src/components/ParcelPopup.tsx:10-52 | a popup exists exactly when `visible` holds and both position and properties are present; its left and top are 10 pixels past the anchor; its rows are `Rows` of the properties |
| `ParcelPopup.RowOf` | src/components/ParcelPopup.tsx:39-47 | an entry's row has as heading the key with each `_` replaced by a space and every other character kept in place (so as long as the key, with no `_` left), and reads `N/A` for a missing value or the value's string form otherwise |
| `ParcelPopup.Label` | src/components/ParcelPopup.tsx:41 | the label has the key's length, each `_` becomes a space, every other character is unchanged, and no `_` is left |
| `ParcelPopup.ValueText` | src/components/ParcelPopup.tsx:44 | a missing value reads `N/A`; a present value reads as its string form, even when that is empty |
| `ParcelPopup.Rows` | src/components/ParcelPopup.tsx:35-48 | there are never more rows than entries |
| `ParcelPopup.RowsAppend` | src/components/ParcelPopup.tsx:35-36 | the rows of two entry lists joined are the two row lists joined, so entry order is kept |
| `ParcelPopup.RowsSingle` | src/components/ParcelPopup.tsx:36-47 | one entry gives no row if its key is `geometry` or `layer`, and otherwise exactly its own row |
| `ParcelPopup.RowsCount` | src/components/ParcelPopup.tsx:35-36 | the number of rows equals the number of entries whose key is neither `geometry` nor `layer` |
| `ParcelPopup.RowsAt` | src/components/ParcelPopup.tsx:35-47 | a shown entry's row sits right after the rows of the entries before it |
| `ParcelPopup.RowsOrdered` | src/components/ParcelPopup.tsx:35-36 | of two shown entries, the earlier one's row comes first |
| `ParcelPopup.LabelExample` | src/components/ParcelPopup.tsx:41 | `parcel_number` is labelled `parcel number`, and `area` stays `area` |
| `ParcelPopup.RowsExample` | src/components/ParcelPopup.tsx:35-47 | geometry, parcel_number, layer and a missing area give the rows `parcel number: 1234/5` and `area: N/A` |
| `ParcelLayer.FindByName` | src/layers/CustomVectorTileLayer.tsx:34 | the index found is that of the first entry with the name; nothing is found only when no entry has the name |
| `ParcelLayer.ParcelsTileUrl` | src/layers/CustomVectorTileLayer.tsx:34-37 | a URL exists exactly when there is an entry named `cadastral_parcels` and the first such entry has at least one template |
| `ParcelLayer.FirstParcelsEntryDecides` | src/layers/CustomVectorTileLayer.tsx:34-40 | the first `cadastral_parcels` entry alone decides: its `tiles[0]` if it has templates, else no URL, whatever later entries hold |
| `ParcelLayer.NoParcelsEntryNoUrl` | src/layers/CustomVectorTileLayer.tsx:34-40 | with no entry named `cadastral_parcels` there is no URL |
| `ParcelLayer.ChosenUrlIsFirstTemplate` | src/layers/CustomVectorTileLayer.tsx:36-37 | any chosen URL is `tiles[0]` of an entry named `cadastral_parcels` |
| `ParcelLayer.TileUrlAfter` | src/layers/CustomVectorTileLayer.tsx:26-44 | a failed or non-ok request, or a list with no usable entry, leaves `tileUrl` as it was; otherwise `tileUrl` becomes the chosen URL |
| `ParcelLayer.CanAttach` | src/layers/CustomVectorTileLayer.tsx:52 | a layer may be added only with a map and a URL; an empty-string URL is refused as JavaScript's `!tileUrl` does; any map with a non-empty URL is accepted |
| `ParcelLayer.RemoveFirst` | src/layers/CustomVectorTileLayer.tsx:77 | removing a layer that is absent changes nothing; removing one that is present shortens the list by one |
| `ParcelLayer.RemoveFirstAfterAppend` | src/layers/CustomVectorTileLayer.tsx:72-78 | removing a layer from a list where it first occurs right after `before` leaves exactly `before` followed by everything after it, in order, whatever that later part holds |
| `ParcelLayer.Layer.constructor` | src/layers/CustomVectorTileLayer.tsx:55-69 | a new layer is bound to the given tile URL |
| `ParcelLayer.OlMap.AddLayer` | src/layers/CustomVectorTileLayer.tsx:72 | the layer list becomes the old list with the layer appended |
| `ParcelLayer.OlMap.RemoveLayer` | src/layers/CustomVectorTileLayer.tsx:77 | the layer list loses the layer's first occurrence |
| `ParcelLayer.CustomVectorTileLayer.constructor` | src/layers/CustomVectorTileLayer.tsx:19-24 | at mount `tileUrl` is null, the capabilities request a production build issues once is outstanding, and no cleanup is pending |
| `ParcelLayer.CustomVectorTileLayer.ResolveCapabilities` | src/layers/CustomVectorTileLayer.tsx:24-48 | in a production build the request settles once; `tileUrl` becomes `TileUrlAfter` of the response; the layer's cleanup is untouched |
| `ParcelLayer.CustomVectorTileLayer.RunLayerEffect` | src/layers/CustomVectorTileLayer.tsx:51-75 | with a map and a non-empty URL, one fresh layer with that URL is appended, and its removal from that map becomes the pending cleanup; otherwise nothing is added or pending |
| `ParcelLayer.CustomVectorTileLayer.RunLayerCleanup` | src/layers/CustomVectorTileLayer.tsx:76-78 | the pending cleanup removes its layer from the map it was added to, and nothing else changes |
| `ParcelLayer.MountTimeLayerEffectRuns` | src/layers/CustomVectorTileLayer.tsx:51-52 | the layer effect run at mount, cleaned up and run again (as StrictMode does in development) adds no layer, since `tileUrl` is still null, and leaves the map's layers as they were |
| `ParcelLayer.MountThenUnmount` | src/layers/CustomVectorTileLayer.tsx:19-82 | over one mount a layer is added exactly when the response yields a non-empty URL, it carries that URL, and right after the attach the map holds its old layers plus that one; after unmount the map holds exactly what it would hold had the component never mounted, including layers others added meanwhile |

## Left out

- IEEE-754 arithmetic: the rounding of every `+` and `-` on coordinates is not modelled, because coordinates are exact reals. This covers the room tests `clickX + popupWidth` and `clickY + popupHeight` (0.1 + 0.2 > 0.3 in JavaScript), the shift-back `clickX - popupWidth` and `clickY - popupHeight` (0.3 - 0.1 is 0.19999999999999998 in JavaScript), and the popup's `+ 10` offsets. NaN and infinite inputs are not modelled either.
- Network I/O and JSON parsing (`fetch`, `response.json()`): the request's outcome is an input value.
- The request's asynchrony. Its settling is one explicit call, and a component unmounting before the request settles is not modelled.
- `console.log` and `console.error` calls: they only write to the console.
- OpenLayers internals (the vector tile source, MVT decoding, `Style`/`Stroke`/`Fill`, rendering): foreign library code. A layer is an opaque object that carries its URL.
- The markup (including the `:` rendered after each label), the Tailwind classes, CSS `capitalize` and the close button's `onClose`: presentation only.
- The ordering of `Object.entries`, which lists integer-like keys first: the model takes the entries in the order given.
- `String(value)` for values that are not strings: the model takes the string form as its input.
- A `tiles` field that is absent from a capabilities entry (the `parcelsMap.tiles &&` test): entries always carry a list. An absent `maps` field counts as `Failed`.
- React's rendering and its comparison of effect dependencies: effects and cleanups are explicit method calls.
- React StrictMode's development-only re-run of effects (src/main.tsx:8 wraps the app in `<StrictMode>`): in development each effect runs, is cleaned up and runs again, so the capabilities request is issued twice and each response that yields a URL sets `tileUrl`. The model follows a production build, with one request that settles once. The layer effect's extra run happens only at mount, when `tileUrl` is still null, so it stops at the `!map || !tileUrl` guard and adds nothing (`MountTimeLayerEffectRuns`).
- The map context and the other components (the base map, the land-cover layer and its toggle, bootstrapping): they have no parcel logic of their own.
