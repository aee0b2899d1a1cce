/**
 * Small shared vocabulary: optional values, results, the exceptions the
 * token code can raise, and Rails' notion of a blank string.
 */
module Support {

  datatype Option<+T> = None | Some(value: T)

  datatype Result<+T, +E> = Ok(value: T) | Err(error: E)

  /** The exceptions that escape the modelled code. */
  datatype Failure =
    | NoMethodError      // a method called on nil (or on an object lacking it)
    | RecordInvalid      // ActiveRecord `create!` refused by a validation
    | InvalidTokenReuse  // Doorkeeper::Errors::InvalidTokenReuse

  /** The characters of the POSIX class [[:space:]] under Unicode (White_Space). */
  predicate IsSpace(c: char)
  {
    c == ' ' || ('\t' <= c <= '\r') || c == '\U{85}' || c == '\U{A0}' || c == '\U{1680}'
    || ('\U{2000}' <= c <= '\U{200A}') || c == '\U{2028}' || c == '\U{2029}'
    || c == '\U{202F}' || c == '\U{205F}' || c == '\U{3000}'
  }

  /** `String#blank?`: empty or made only of white space. */
  predicate Blank(s: string)
  {
    forall i :: 0 <= i < |s| ==> IsSpace(s[i])
  }

  /** `present?` on a value that is nil or a string. */
  predicate Present(s: Option<string>)
  {
    s.Some? && !Blank(s.value)
  }
}
