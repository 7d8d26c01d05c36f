/**
 * The ASCII character classes and the ASCII lower-casing that the grammar compiler's
 * clean (go-worker/cmd/gen-grammar/main.go:123-135) and the resizer's extension test
 * (go-worker/internal/image/resize.go:69) both rely on.
 */
module Ascii {
  predicate IsLowerOrDigit(r: char) { 'a' <= r <= 'z' || '0' <= r <= '9' }

  predicate IsUpper(r: char) { 'A' <= r <= 'Z' }

  predicate IsAsciiAlnum(r: char) { IsLowerOrDigit(r) || IsUpper(r) }

  /** ASCII lower-casing; every other rune is left alone. */
  function LowerAscii(r: char): (l: char)
    ensures IsUpper(r) ==> IsLowerOrDigit(l) && l as int == r as int + 32
    ensures !IsUpper(r) ==> l == r
  {
    if IsUpper(r) then (r as int + 32) as char else r
  }
}
