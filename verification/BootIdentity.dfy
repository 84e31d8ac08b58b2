// The identity of a host boot: the accepted spellings of a boot UUID, and when
// one identity proves that the host has rebooted since another.
module BootIdentity {
  datatype Boot = Boot(source: string, uuid: string)

  const NO_BOOT := Boot("", "")
  const ZERO_UUID := "00000000-0000-0000-0000-000000000000"

  predicate KnownSource(source: string) {
    source == "linux-boot-id-v1" || source == "darwin-bootsessionuuid-v1"
  }

  function LowerChar(c: char): char {
    if 'A' <= c <= 'Z' then (c as int + 32) as char else c
  }

  function Lower(s: string): (r: string)
    ensures |r| == |s| && forall i :: 0 <= i < |s| ==> r[i] == LowerChar(s[i])
  {
    seq(|s|, i requires 0 <= i < |s| => LowerChar(s[i]))
  }

  predicate LowerHex(c: char) {
    '0' <= c <= '9' || 'a' <= c <= 'f'
  }

  predicate Dashed(i: nat) {
    i == 8 || i == 13 || i == 18 || i == 23
  }

  /** Thirty-six characters: lower-case hexadecimal digits, and dashes where a
      UUID has them. */
  predicate CanonicalUuid(s: string) {
    |s| == 36 && s != ZERO_UUID && forall i :: 0 <= i < 36 ==> if Dashed(i) then s[i] == '-' else LowerHex(s[i])
  }

  /** The only identities that parsing ever returns, beside the empty one. */
  predicate Valid(b: Boot) {
    KnownSource(b.source) && CanonicalUuid(b.uuid)
  }

  predicate LaterThan(b: Boot, previous: Boot) {
    Valid(b) && Valid(previous) && b.source == previous.source && b.uuid != previous.uuid
  }

  method ParseHostBootIdentity(source: string, value: string) returns (b: Boot)
    ensures b == if KnownSource(source) && CanonicalUuid(Lower(value)) then Boot(source, Lower(value)) else NO_BOOT
    ensures Valid(b) <==> b != NO_BOOT
  {
    if source != "linux-boot-id-v1" && source != "darwin-bootsessionuuid-v1" {
      return NO_BOOT;
    }
    var lower := Lower(value);
    if |lower| != 36 || lower == ZERO_UUID {
      return NO_BOOT;
    }
    var i := 0;
    while i < |lower|
      invariant 0 <= i <= |lower|
      invariant forall j :: 0 <= j < i ==> if Dashed(j) then lower[j] == '-' else LowerHex(lower[j])
    {
      if i == 8 || i == 13 || i == 18 || i == 23 {
        if lower[i] != '-' {
          return NO_BOOT;
        }
      } else if !LowerHex(lower[i]) {
        return NO_BOOT;
      }
      i := i + 1;
    }
    return Boot(source, lower);
  }

  /** The check of the source: not empty, and parsing gives back the same. */
  method IsValid(b: Boot) returns (valid: bool)
    ensures valid <==> Valid(b)
  {
    var again := ParseHostBootIdentity(b.source, b.uuid);
    if CanonicalUuid(b.uuid) {
      LowerKeepsCanonical(b.uuid);
    }
    valid := b != NO_BOOT && again == b;
  }

  lemma LowerKeepsCanonical(s: string)
    requires CanonicalUuid(s)
    ensures Lower(s) == s
  {
    forall i | 0 <= i < |s| ensures LowerChar(s[i]) == s[i] {
    }
  }

  /** The identities carry no order: the relation says that two boots of one
      source differ, whichever came first, and never relates a boot to itself. */
  lemma RebootIsSymmetricAndIrreflexive(a: Boot, b: Boot)
    ensures LaterThan(a, b) <==> LaterThan(b, a)
    ensures !LaterThan(a, a)
    ensures Valid(a) && Valid(b) && a.source == b.source ==> LaterThan(a, b) || a == b
  {
  }
}
