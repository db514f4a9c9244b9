/** Values shared by the models. */
module Collections {

  datatype Option<+T> = None | Some(value: T)

  datatype Result<+T, +E> = Ok(value: T) | Err(error: E)

  /** Characters that Python's `strip` removes, up to U+00A0. */
  predicate IsSpace(c: char) {
    9 <= c as int <= 13 || 28 <= c as int <= 32 || c as int == 133 || c as int == 160
  }

  predicate Blank(text: string) {
    forall i :: 0 <= i < |text| ==> IsSpace(text[i])
  }

  /** A command key must contain 1..120 characters, not all blank (src/orqalis/core/runtime_support.py, `require_key`). */
  predicate ValidKey(key: string) { !Blank(key) && |key| <= 120 }
}
