/** The static data of the grid and how one tile is drawn: the `ButtonData`
    record, the fixed list of 24 items built in `InteractiveButtonGrid`, and the
    `InteractiveButton` composable reduced to the choice of paints it makes. */
module Buttons {
  import Decimal

  /** A display colour. The model keeps the ARGB word written in the source
      but never looks inside it. */
  datatype Color = Color(argb: int)

  /** `data class ButtonData(val color: Color, val number: String)` */
  datatype ButtonData = ButtonData(color: Color, number: string)

  /** Number of tiles in the grid. */
  const N: nat := 24

  /** The items, in display order; tile `i` is `Items[i]`. */
  const Items: seq<ButtonData> := [
    ButtonData(Color(0xFFE57373), "1"),
    ButtonData(Color(0xFF81C784), "2"),
    ButtonData(Color(0xFF64B5F6), "3"),
    ButtonData(Color(0xFFFFB74D), "4"),
    ButtonData(Color(0xFFBA68C8), "5"),
    ButtonData(Color(0xFF4DB6AC), "6"),
    ButtonData(Color(0xFFFF8A65), "7"),
    ButtonData(Color(0xFF90A4AE), "8"),
    ButtonData(Color(0xFFF06292), "9"),
    ButtonData(Color(0xFF7986CB), "10"),
    ButtonData(Color(0xFF4DD0E1), "11"),
    ButtonData(Color(0xFFFFD54F), "12"),
    ButtonData(Color(0xFF8D6E63), "13"),
    ButtonData(Color(0xFF9575CD), "14"),
    ButtonData(Color(0xFF4FC3F7), "15"),
    ButtonData(Color(0xFF66BB6A), "16"),
    ButtonData(Color(0xFFFFCC02), "17"),
    ButtonData(Color(0xFFEC407A), "18"),
    ButtonData(Color(0xFF42A5F5), "19"),
    ButtonData(Color(0xFF26A69A), "20"),
    ButtonData(Color(0xFFFF7043), "21"),
    ButtonData(Color(0xFF9CCC65), "22"),
    ButtonData(Color(0xFF26C6DA), "23"),
    ButtonData(Color(0xFFD4E157), "24")
  ]

  /** There are `N` items and item `i` is labelled with the ordinal `i + 1`. */
  lemma ItemsLabelled()
    ensures |Items| == N
    ensures forall i :: 0 <= i < N ==> Items[i].number == Decimal.NatToString(i + 1)
  {
  }

  /** The paints a tile can use: the theme's colour roles, two fixed colours,
      and the item's own colour. */
  datatype Paint =
    | PrimaryContainer      // MaterialTheme.colorScheme.primaryContainer
    | Primary               // MaterialTheme.colorScheme.primary
    | OnPrimaryContainer    // MaterialTheme.colorScheme.onPrimaryContainer
    | White                 // Color.White
    | FaintBlack            // Color.Black at 30% opacity
    | Own(color: Color)     // the item's colour

  /** How a tile is drawn: fill, border width in dp, border paint, text paint. */
  datatype TileStyle = TileStyle(background: Paint, borderWidth: nat, border: Paint, text: Paint)

  /** A rendered tile: the number it shows and its style. */
  datatype Tile = Tile(number: string, style: TileStyle)

  /** The look every selected tile shares, whatever its item. */
  const SelectedStyle: TileStyle := TileStyle(PrimaryContainer, 3, Primary, OnPrimaryContainer)

  /** The style of a tile showing `item`; `isSelected` alone picks between the
      selected variant and the default variant drawn in the item's own colour. */
  function StyleFor(item: ButtonData, isSelected: bool): (st: TileStyle)
    ensures st == SelectedStyle <==> isSelected
    ensures !isSelected ==> st.background == Own(item.color) && st.borderWidth == 1
  {
    TileStyle(
      if isSelected then PrimaryContainer else Own(item.color),
      if isSelected then 3 else 1,
      if isSelected then Primary else FaintBlack,
      if isSelected then OnPrimaryContainer else White)
  }

  /** The tile `InteractiveButton` draws for `item`. */
  function TileFor(item: ButtonData, isSelected: bool): (t: Tile)
    ensures t.number == item.number
    ensures t.style == SelectedStyle <==> isSelected
  {
    Tile(item.number, StyleFor(item, isSelected))
  }
}
