/** Blank strings. */
module Text {
  /** Unicode's White_Space property, as the Go standard library tests it. */
  predicate IsSpace(c: char) {
    var n := c as int;
    0x9 <= n <= 0xD || n == 0x20 || n == 0x85 || n == 0xA0 || n == 0x1680 || 0x2000 <= n <= 0x200A ||
    n == 0x2028 || n == 0x2029 || n == 0x202F || n == 0x205F || n == 0x3000
  }

  /** Five control characters, the next-line character, and the separators of Unicode. */
  lemma SpacesByNumber(c: char)
    ensures IsSpace(c) <==>
            c as int in {9, 10, 11, 12, 13, 32, 133, 160, 5760, 8192, 8193, 8194, 8195, 8196, 8197, 8198, 8199, 8200, 8201, 8202,
                         8232, 8233, 8239, 8287, 12288}
  {
  }

  /** Nothing is left of it once spaces are trimmed. */
  predicate Blank(s: string) { forall c :: c in s ==> IsSpace(c) }

  function FirstNonBlank(a: string, b: string): string {
    if !Blank(a) then a else if !Blank(b) then b else ""
  }
}
