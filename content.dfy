/**
 * Text carried by table cells: Arabic words as terms and WordprocessingML
 * paragraphs reduced to their style names and runs.
 */
module Content {
  import opened Wrappers

  /**
   * An Arabic word. Its Unicode rendering belongs to a foreign library, so the
   * two ways the charts combine words are kept as terms instead of strings.
   */
  datatype Word =
    | Letters(text: string)              // one word as written
    | SpaceJoined(parts: seq<Word>)      // ArabicWord.concatenateWithSpace
    | AndJoined(first: Word, second: Word) // ArabicWord.concatenateWithAnd

  /** A run of text: its character style, its word and whether a space follows it. */
  datatype Run = Run(charStyle: Option<string>, text: Word, trailingSpace: bool)

  /** A paragraph: its paragraph style and its runs, in order. */
  datatype Para = Para(style: Option<string>, runs: seq<Run>)
}
