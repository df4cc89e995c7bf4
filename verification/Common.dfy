/** Values shared by every part of the model: bytes, options and the subject text. */
module Common {

  type byte = x: int | 0 <= x < 256

  datatype Option<+T> = None | Some(value: T)

  const NEWLINE: byte := 0x0a

  /** The subject of a match.  `past` is whatever the character reader returns for a position outside
      the text: several opcodes read one character before they test for the end.  `gpos` is the \G
      position; `notbol` and `noteol` are the two search options of the same name. */
  datatype Subject = Subject(data: seq<byte>, past: byte, gpos: int, notbol: bool, noteol: bool) {

    function End(): nat { |data| }

    function At(i: int): byte {
      if 0 <= i < |data| then data[i] else past
    }

    /** The single-byte newline test of onigenc_is_mbc_newline_0x0a_se. */
    predicate IsNewline(i: int) {
      i < |data| && At(i) == NEWLINE
    }

    /** `bs` occurs at position i. */
    predicate Has(i: int, bs: seq<byte>) {
      0 <= i && i + |bs| <= |data| && data[i..i + |bs|] == bs
    }
  }

  function Max(a: int, b: int): int { if a < b then b else a }

  function Min(a: int, b: int): int { if a < b then a else b }

  /** a taken m times. */
  function Scaled(a: nat, m: nat): nat { a * m }

  lemma ScaledStep(a: nat, m: nat)
    requires 0 < m
    ensures Scaled(a, m) == a + Scaled(a, m - 1)
  {
  }

  lemma ScaledZero(a: nat)
    ensures Scaled(a, 0) == 0 && Scaled(0, a) == 0
  {
  }

  lemma ScaledAdd(a: nat, m: nat, n: nat)
    ensures Scaled(a, m + n) == Scaled(a, m) + Scaled(a, n)
  {
  }
}
