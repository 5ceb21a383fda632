/** Datatypes and a text predicate shared by the modules of this project. */
module Prelude {

  datatype Option<+T> = None | Some(value: T)

  datatype Result<+T, +E> = Ok(value: T) | Err(error: E)

  predicate ContainsFrom(text: string, pat: string, i: nat)
    requires i <= |text|
  {
    pat <= text[i..]
  }

  predicate Contains(text: string, pat: string) {
    exists i :: 0 <= i <= |text| && ContainsFrom(text, pat, i)
  }
}
