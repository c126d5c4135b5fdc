# InteractiveButtonGrid — selection model

The app shows one screen: a grid of 24 coloured tiles numbered 1 to 24, a
counter line `Selected: {count} of {total}` and a "Clear Selection" button.
Tapping a tile flips it between selected and unselected. "Clear Selection"
deselects everything and is enabled only while something is selected. All of
this is driven by one state value: `selectedButtons`, the set of indices of
the selected tiles.

This project models that state machine in Dafny and proves its properties.

- `decimal.dfy` (`Decimal`): how a string template renders a non-negative
  `Int` in decimal, together with the parser that inverts it.
- `buttons.dfy` (`Buttons`): the `ButtonData` record and the fixed list of 24
  items. It also holds the styling choice `InteractiveButton` makes. That
  choice is reduced to which paint goes on the fill, the border and the text,
  plus the border width.
- `counter.dfy` (`Counter`): the counter line, and a reader that recovers the
  count and the total from it.
- `grid.dfy` (`Grid`): the class `GridState` with the field `selected`. Its
  methods `Toggle` and `Clear` are the two click handlers. Its functions
  `IsSelected`, `Count`, `ClearEnabled`, `CounterLine` and `Tiles` are the
  values the screen derives from the state. `Toggled` is the
  set-level specification of a tap, and lemmas are proved about it.
  `Walkthrough` is a client that replays a short session: tap 0, tap 5, tap 0,
  clear.

The invariant `GridState.Valid()` says that every selected index names an
existing tile (`0 <= i < 24`). It holds because taps are only wired to the
tiles that `forEachIndexed` draws. That is why `Toggle` requires
`0 <= i < N`.

## Model

| member | source | states |
|---|---|---|
| `Decimal.NatToString` | MainActivity.kt:88 | The decimal text of a count is non-empty and all digits, and it starts with '0' only for zero. |
| `Decimal.ParseNatToString` | MainActivity.kt:88 | Parsing the decimal text of `n` gives back `n`. |
| `Decimal.NatToStringInjective` | MainActivity.kt:88 | Two different counts never render to the same text. |
| `Buttons.ItemsLabelled` | MainActivity.kt:43-68 | There are exactly 24 items, and item `i` carries the label of the ordinal `i + 1`. |
| `Buttons.StyleFor` | MainActivity.kt:138-161 | A tile takes the shared selected look exactly when `isSelected` holds. Otherwise it is filled with the item's own colour and has a 1 dp border. |
| `Buttons.TileFor` | MainActivity.kt:133-161 | A tile shows its item's number, and it has the selected look exactly when it is selected. |
| `Counter.CounterText` | MainActivity.kt:88 | Reading the counter line back yields exactly the pair (count, total). |
| `Counter.CounterTextOfDigit` | MainActivity.kt:88 | With fewer than ten of the 24 tiles selected, the line is literally `Selected: d of 24`. |
| `Grid.Toggled` | MainActivity.kt:107-111 | After a tap on `i`, `i` is selected iff it was not before, and every other index keeps its membership. |
| `Grid.ToggledTwice` | MainActivity.kt:107-111 | Tapping the same tile twice restores the original selection. |
| `Grid.ToggledInRange` | MainActivity.kt:102-112 | A tap on an existing tile keeps every selected index within `0 <= i < 24`. |
| `Grid.ToggledCount` | MainActivity.kt:107-111 | A tap changes the size of the selection by exactly one: down if the tile was selected, up otherwise. |
| `Grid.BoundedSize` | MainActivity.kt:43-68 | A set of indices that are all below `n` has at most `n` elements. |
| `Grid.GridState.constructor` | MainActivity.kt:39 | The screen starts with an empty selection, which is valid. |
| `Grid.GridState.Toggle` | MainActivity.kt:106-112 | The new selection is `Toggled(old selection, i)`. The tapped tile flips and no other tile changes, in both membership and rendered tile. The count moves by one. The invariant is kept. |
| `Grid.GridState.Clear` | MainActivity.kt:121 | From any prior state the selection becomes empty. Afterwards the count is 0, the counter line is the one for 0 of 24, and "Clear Selection" is disabled. |
| `Grid.GridState.IsSelected` | MainActivity.kt:105 | Only an existing tile index can be selected. |
| `Grid.GridState.Count` | MainActivity.kt:88 | The reported count never exceeds the 24 tiles, and it is zero exactly when the selection is empty. |
| `Grid.GridState.ClearEnabled` | MainActivity.kt:122 | "Clear Selection" is enabled exactly when the count is positive. It is disabled exactly when no tile is selected. |
| `Grid.GridState.CounterLine` | MainActivity.kt:88 | The counter line reads back as (size of the selection, 24), and that size is at most 24. |
| `Grid.GridState.Tiles` | MainActivity.kt:102-114 | There are 24 tiles in list order. Tile `i` shows the ordinal `i + 1` and takes the selected look exactly when `i` is selected. An unselected tile is filled with its item's colour. |
| `Grid.Walkthrough` | MainActivity.kt:88-122 | Tapping 0, 5 and 0 and then clearing shows the counter lines for 1, 2, 1 and 0 of 24. "Clear Selection" is enabled, enabled, enabled and then disabled. |

## Left out

- Activity hosting (`MainActivity.onCreate`, `setContent`, `MaterialTheme`): this is Android framework plumbing with no selection logic.
- `remember` / `mutableStateOf` and recomposition: the state is a plain field, and re-rendering is the framework's job. `Tiles`, `CounterLine` and `ClearEnabled` describe what any rendering of a state shows.
- Layout (`Column`, `FlowRow`, `Spacer`, `Box`, padding, sizes, font size and weight) and the title text: these are presentation only.
- Colours are kept as the ARGB words written in the source, but the model never interprets them. Theme colour roles are named and not resolved to values. The border of an unselected tile is black at 30 % opacity, a float that is modelled as the single paint `FaintBlack`.
- `InteractiveButtonGridPreview`: it is a design-time preview and is never part of the running screen.
- `app/build.gradle.kts`: build and dependency configuration, with no behaviour.
- Kotlin's 32-bit `Int` is modelled as an unbounded integer. Every count and index here is at most 24, so no wrap-around can occur.
