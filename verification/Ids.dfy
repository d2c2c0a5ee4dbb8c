/** Canonical identifiers: the hyphenated text of a version 7 UUID (domain/src/ids.rs, lines 22-101). */
module Ids {
  import opened Common

  const WIDTH := 36

  /** Lowercase hyphenated `8-4-4-4-12` hexadecimal with version nibble 7. */
  predicate IsCanonicalId(text: seq<byte>) {
    && |text| == WIDTH
    && (forall i :: 0 <= i < WIDTH ==>
          if i in {8, 13, 18, 23} then text[i] == 45 else 48 <= text[i] <= 57 || 97 <= text[i] <= 102)
    && text[14] == 55
  }

  const ZERO_ID: seq<byte> := [48, 48, 48, 48, 48, 48, 48, 48, 45, 48, 48, 48, 48, 45, 55, 48, 48, 48, 45,
                               48, 48, 48, 48, 45, 48, 48, 48, 48, 48, 48, 48, 48, 48, 48, 48, 48]
}
