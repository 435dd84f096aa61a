/** Well-formed UTF-8 (RFC 3629, section 4). */
module Utf8 {
  import opened Common

  predicate Tail(b: byte) { 0x80 <= b <= 0xBF }

  /** The two bytes that open a three-byte sequence. */
  predicate Lead3(a: byte, b: byte) {
    || (a == 0xE0 && 0xA0 <= b <= 0xBF)
    || (0xE1 <= a <= 0xEC && Tail(b))
    || (a == 0xED && 0x80 <= b <= 0x9F)
    || (0xEE <= a <= 0xEF && Tail(b))
  }

  /** The two bytes that open a four-byte sequence. */
  predicate Lead4(a: byte, b: byte) {
    || (a == 0xF0 && 0x90 <= b <= 0xBF)
    || (0xF1 <= a <= 0xF3 && Tail(b))
    || (a == 0xF4 && 0x80 <= b <= 0x8F)
  }

  predicate IsUtf8(s: Bytes) {
    if s == [] then true
    else if s[0] < 0x80 then IsUtf8(s[1..])
    else if 0xC2 <= s[0] <= 0xDF then |s| >= 2 && Tail(s[1]) && IsUtf8(s[2..])
    else if |s| >= 3 && Lead3(s[0], s[1]) then Tail(s[2]) && IsUtf8(s[3..])
    else |s| >= 4 && Lead4(s[0], s[1]) && Tail(s[2]) && Tail(s[3]) && IsUtf8(s[4..])
  }
}
