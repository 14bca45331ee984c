/**
 * UUIDs as the Go services see them (github.com/google/uuid): a UUID value
 * is identified with its canonical text (`String()`: 36 characters,
 * lower-case hexadecimal with hyphens at 8, 13, 18 and 23), and `Parse`
 * accepts the dashed form, the dashed form behind a `urn:uuid:` prefix or
 * one leading character, and 32 bare hexadecimal digits.
 */
module Uuids {
  import opened Wrappers
  import opened Text
  import opened GoErrors

  predicate IsHex(c: char) { '0' <= c <= '9' || 'a' <= c <= 'f' || 'A' <= c <= 'F' }
  predicate IsLowerHex(c: char) { '0' <= c <= '9' || 'a' <= c <= 'f' }
  predicate HyphenAt(i: int) { i == 8 || i == 13 || i == 18 || i == 23 }

  /** The text `String()` produces. */
  predicate Canonical(s: string)
  {
    |s| == 36 && forall i :: 0 <= i < 36 ==> if HyphenAt(i) then s[i] == '-' else IsLowerHex(s[i])
  }

  type Uuid = s: string | Canonical(s) witness "00000000-0000-0000-0000-000000000000"

  const Nil: Uuid := "00000000-0000-0000-0000-000000000000"

  /** The dashed form in either case. */
  predicate Dashed(s: string)
  {
    |s| == 36 && forall i :: 0 <= i < 36 ==> if HyphenAt(i) then s[i] == '-' else IsHex(s[i])
  }

  predicate AllHex(s: string) { forall i :: 0 <= i < |s| ==> IsHex(s[i]) }

  lemma LowerDashedIsCanonical(s: string)
    requires Dashed(s)
    ensures Canonical(Lower(s))
  {
  }

  /**
   * The canonical text of a dashed form: the same text up to the case of its
   * hexadecimal letters, and a text already canonical is kept as it is.
   */
  function FromDashed(s: string): (u: Uuid)
    requires Dashed(s)
    ensures Lower(u) == Lower(s)
    ensures forall i :: 0 <= i < 36 && !('A' <= s[i] <= 'F') ==> u[i] == s[i]
    ensures Canonical(s) ==> u == s
  {
    LowerDashedIsCanonical(s);
    var u := Lower(s);
    assert Lower(u) == u;
    u
  }

  /** 32 bare digits with the hyphens inserted. */
  function Hyphenate(s: string): (d: string)
    requires |s| == 32 && AllHex(s)
    ensures Dashed(d)
  {
    var d := s[..8] + "-" + s[8..12] + "-" + s[12..16] + "-" + s[16..20] + "-" + s[20..];
    assert forall i :: 0 <= i < 36 && !HyphenAt(i) ==>
      d[i] == s[if i < 8 then i else if i < 13 then i - 1 else if i < 18 then i - 2 else if i < 23 then i - 3 else i - 4];
    d
  }

  const InvalidFormat := Opaque("invalid UUID format")

  /** `uuid.Parse`, dispatching on the length as the library does. */
  function Parse(s: string): (r: Result<Uuid, Error>)
    ensures r.Failure? ==> r.error.Opaque?
    ensures Dashed(s) ==> r == Ok(FromDashed(s))
    ensures r.Ok? ==> |s| in {32, 36, 38, 45}
  {
    if |s| == 36 then
      if Dashed(s) then Ok(FromDashed(s)) else Failure(InvalidFormat)
    else if |s| == 45 then
      if Lower(s[..9]) != "urn:uuid:" then Failure(Opaque("invalid urn prefix: \"" + s[..9] + "\""))
      else if Dashed(s[9..]) then Ok(FromDashed(s[9..])) else Failure(InvalidFormat)
    else if |s| == 38 then
      if Dashed(s[1..37]) then Ok(FromDashed(s[1..37])) else Failure(InvalidFormat)
    else if |s| == 32 then
      if AllHex(s) then Ok(FromDashed(Hyphenate(s))) else Failure(InvalidFormat)
    else Failure(Opaque("invalid UUID length: " + Itoa(|s|)))
  }

  /** `Parse(u.String()) == u`: the canonical text parses to itself. */
  lemma ParseCanonical(u: Uuid)
    ensures Parse(u) == Ok(u)
  {
    assert Dashed(u);
    assert Lower(u) == u;
  }
}
