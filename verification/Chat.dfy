/** The lines of the terminal transcript. */
module Chat {
  /** A text style; lines of the assistant have the default one. */
  type Style = nat

  const DEFAULT_STYLE: Style := 0

  datatype ChatLine = ChatLine(text: string, style: Style)
}
