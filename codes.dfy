/** Redemption codes: normalisation, the fixed code registry, single use, and the two admin codes that
    are never recorded. */
module Codes {
  import Text

  datatype CodeOutcome =
    | Blank                             // nothing left after trimming: ignored
    | AlreadyUsed                       // a single-use code seen before
    | AdminGranted                      // ROOT / ADMINCASH: admin mode on, never recorded
    | Granted(coins: nat, radium: bool) // credited and recorded; `radium` adds a radium boost
    | Unknown                           // not a registered code: nothing changes

  /** How long the radium boost granted by PLAYER123 lasts, in milliseconds. */
  const RadiumGrantDuration: nat := 300000

  /** `raw.toUpperCase().trim()`. */
  function Normalize(raw: string): (code: string)
    ensures |code| <= |raw|
    ensures forall i :: 0 <= i < |code| ==> !Text.IsLower(code[i])
    ensures code == [] || (!Text.IsSpace(code[0]) && !Text.IsSpace(code[|code| - 1]))
    ensures code == [] <==> forall i :: 0 <= i < |raw| ==> Text.IsSpace(raw[i])
  {
    var u := Text.ToUpper(raw);
    Text.TrimIsSlice(u);
    Text.TrimEmptyIffBlank(u);
    Text.Trim(u)
  }

  /** Normalising twice is normalising once. */
  lemma {:induction false} NormalizeIdempotent(raw: string)
    ensures Normalize(Normalize(raw)) == Normalize(raw)
  {
    var u := Text.ToUpper(raw);
    var t := Text.Trim(u);
    Text.TrimIsSlice(u);
    assert forall i :: 0 <= i < |t| ==> !Text.IsLower(t[i]);
    Text.ToUpperFixed(t);
    Text.TrimFixed(t);
  }

  predicate IsAdminCode(code: string) { code == "ROOT" || code == "ADMINCASH" }

  /** The decision `handleRedeemCode` takes for an already normalised `code`, given the codes used. */
  function Decide(used: seq<string>, code: string): (r: CodeOutcome)
    ensures r.Granted? <==> code in ["COINS", "PLAYER67", "PLAYER123"] && code !in used
    ensures r.Granted? ==> r.radium == (code == "PLAYER123")
    ensures r == AdminGranted <==> IsAdminCode(code)
    ensures r == AlreadyUsed <==> code in used && code != "" && !IsAdminCode(code)
    ensures r == Blank <==> code == ""
  {
    if code == "" then Blank
    else if code in used && !IsAdminCode(code) then AlreadyUsed
    else if IsAdminCode(code) then AdminGranted
    else if code == "COINS" then Granted(1000, false)
    else if code == "PLAYER67" then Granted(67, false)
    else if code == "PLAYER123" then Granted(123, true)
    else Unknown
  }

  /** `handleRedeemCode` on the raw input. */
  function Redeem(used: seq<string>, raw: string): (r: CodeOutcome)
    ensures r == Blank <==> forall i :: 0 <= i < |raw| ==> Text.IsSpace(raw[i])
    ensures r.Granted? ==> Normalize(raw) !in used
    ensures used == [] && !IsAdminCode(Normalize(raw)) ==> r != AlreadyUsed
  {
    Decide(used, Normalize(raw))
  }

  /** A code that was granted is recorded, so presenting it again, in any spelling that normalises
      the same way, is rejected. */
  lemma GrantedCodeIsSingleUse(used: seq<string>, raw: string, again: string)
    requires Redeem(used, raw).Granted?
    requires Normalize(again) == Normalize(raw)
    ensures Redeem(used + [Normalize(raw)], again) == AlreadyUsed
  {
  }

  /** The admin codes work every time, whatever has been used before. */
  lemma AdminCodesAreReusable(used: seq<string>, raw: string)
    requires IsAdminCode(Normalize(raw))
    ensures Redeem(used, raw) == AdminGranted
  {
  }

  /** Case and surrounding whitespace do not matter: a normalised code redeems as its raw form. */
  lemma RedeemDependsOnlyOnNormalForm(used: seq<string>, raw: string)
    ensures Redeem(used, Normalize(raw)) == Redeem(used, raw)
  {
    NormalizeIdempotent(raw);
    assert Normalize(Normalize(raw)) == Normalize(raw);
  }
}
