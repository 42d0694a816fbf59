/** Text as UTF-16 code units, the form Windows paths and JavaScript strings have. */
module Utf16 {
  type Unit = u: int | 0 <= u < 0x1_0000

  type Text = seq<Unit>
}
