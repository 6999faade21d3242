/** Functions of the Go string library that the model leaves open, with the few of
    their values that proofs use. */
module GoText {

  /** String functions of the Go library whose Unicode detail does not matter here:
      `strings.ToLower`, `strings.TrimSpace`, the folding under `strings.EqualFold`,
      and the joining of fields with single spaces. */
  datatype Text = Text(lower: string -> string, trim: string -> string, fold: string -> string, line: string -> string) {
    predicate SameFold(a: string, b: string) { fold(a) == fold(b) }

    /** The few values of the library functions that the proofs use. */
    predicate GoLike() {
      lower(trim("")) == "" && lower(trim("Failed")) == "failed" && lower(trim("Complete")) == "complete"
    }
  }

  predicate Contains(s: string, part: string) {
    exists i | 0 <= i <= |s| :: part <= s[i..]
  }

  function FirstNonEmpty(a: string, b: string): string {
    if a != "" then a else b
  }
}
