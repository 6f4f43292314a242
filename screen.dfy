/** Screen output as the model records it: the ncurses calls that put
    text on the screen, without their colour attributes. */
module Screen {

  /** mvhline(row, col, ' ', n) or mvprintw(row, col, "%s", text). */
  datatype Write =
    | Blank(row: int, col: int, n: int)
    | Print(row: int, col: int, text: string)
}
