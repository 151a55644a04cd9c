/** The 16-bit flags word of a DNS message header, laid out as in section
    4.1.1 of RFC 1035: QR (bit 15), Opcode (bits 14-11), AA (bit 10), TC (bit 9),
    RD (bit 8), RA (bit 7), Z (bits 6-4) and RCODE (bits 3-0). */
module HeaderFlags {

  /** The Authoritative Answer bit, `1 << 10`. */
  const AA: bv16 := 1 << 10

  /** The flags word split into its fields; the multi-bit fields are kept
      right-aligned in a `bv16`. */
  datatype Fields = Fields(qr: bool, opcode: bv16, aa: bool, tc: bool, rd: bool, ra: bool, z: bv16, rcode: bv16)

  /** Each multi-bit field fits its width. */
  predicate ValidFields(f: Fields) {
    f.opcode < 16 && f.z < 8 && f.rcode < 16
  }

  /** Reads the fields out of a flags word. */
  function Decode(word: bv16): (f: Fields)
    ensures ValidFields(f)
    ensures f.aa <==> word & AA == AA
  {
    Fields(word & 0x8000 != 0, (word >> 11) & 0xF, word & 0x0400 != 0, word & 0x0200 != 0,
           word & 0x0100 != 0, word & 0x0080 != 0, (word >> 4) & 0x7, word & 0xF)
  }

  /** The handler's `response.flags |= 1 << 10`: the AA field becomes 1 and
      every other field of the header keeps its value. */
  function SetAuthoritative(flags: bv16): (r: bv16)
    ensures Decode(r) == Decode(flags).(aa := true)
    ensures r & AA == AA
    ensures r & !AA == flags & !AA
  {
    flags | AA
  }

  /** Setting AA twice is the same as setting it once. */
  lemma SetAuthoritativeIdempotent(flags: bv16)
    ensures SetAuthoritative(SetAuthoritative(flags)) == SetAuthoritative(flags)
  {
  }

  /** Setting AA changes the word exactly when AA was clear. */
  lemma SetAuthoritativeChangesOnlyClearWords(flags: bv16)
    ensures SetAuthoritative(flags) == flags <==> Decode(flags).aa
  {
  }
}
