/** Character classes shared by the password rules and the task card. */
module Chars {

  predicate IsLower(c: char) { 'a' <= c <= 'z' }

  predicate IsUpper(c: char) { 'A' <= c <= 'Z' }

  /** `\d`, which in JavaScript is the ASCII digits only. */
  predicate IsDigit(c: char) { '0' <= c <= '9' }
}
