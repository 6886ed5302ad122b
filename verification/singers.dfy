/** Input helpers used when singers and keys are assigned to tracks. The
    lists of valid singers and keys live in a constants package that is not
    part of this model; they are parameters here. Strings are sequences of
    runes (Unicode code points). */
module Singers {

  /** The linear search both validators run over their list. */
  method Contains(valid: seq<string>, input: string) returns (found: bool)
    ensures found <==> input in valid
  {
    for i := 0 to |valid|
      invariant forall j :: 0 <= j < i ==> valid[j] != input
    {
      if valid[i] == input {
        return true;
      }
    }
    return false;
  }

  /** `ValidateSinger`: true exactly when the input is one of the valid singers. */
  method ValidateSinger(validSingers: seq<string>, singerInput: string) returns (ok: bool)
    ensures ok <==> exists i :: 0 <= i < |validSingers| && validSingers[i] == singerInput
  {
    ok := Contains(validSingers, singerInput);
  }

  /** `ValidateKey`: true exactly when the input is one of the valid keys. */
  method ValidateKey(validKeys: seq<string>, keyInput: string) returns (ok: bool)
    ensures ok <==> exists i :: 0 <= i < |validKeys| && validKeys[i] == keyInput
  {
    ok := Contains(validKeys, keyInput);
  }

  /** `Capitalize`: the first rune upper-cased by `toUpper` (the model of
      `unicode.ToUpper`), the rest untouched. */
  function Capitalize(s: string, toUpper: char -> char): (r: string)
    ensures |r| == |s|
    ensures s == "" ==> r == ""
    ensures |s| > 0 ==> r[0] == toUpper(s[0])
    ensures forall i :: 1 <= i < |s| ==> r[i] == s[i]
  {
    if s == "" then s else s[0 := toUpper(s[0])]
  }

  /** Capitalizing twice is capitalizing once, for any case mapping that is
      itself idempotent. */
  lemma CapitalizeIdempotent(s: string, toUpper: char -> char)
    requires forall c :: toUpper(toUpper(c)) == toUpper(c)
    ensures Capitalize(Capitalize(s, toUpper), toUpper) == Capitalize(s, toUpper)
  {
  }

  /** A string whose first rune is already upper case is left as it is. */
  lemma CapitalizeFixesUpperInitial(s: string, toUpper: char -> char)
    requires |s| > 0 && toUpper(s[0]) == s[0]
    ensures Capitalize(s, toUpper) == s
  {
  }
}
