/**
 * The token registry returned by `getTokens` and the lower-casing used to
 * look tokens up and to compare addresses.
 */
module Tokens {
  import opened Wrappers

  /** A depositable token: base-unit decimals, contract address, USD unit price, eligible chain ids. */
  datatype TokenInfo = TokenInfo(decimals: nat, address: string, price: int, chains: seq<int>)

  /** The fixed registry, keyed by lower-case symbol. */
  function GetTokens(): map<string, TokenInfo> {
    map[
      "ert_d6" := TokenInfo(6, "0xfBB0Aa52B82dD2173D8ce97065b2f421216A312A", 1, [97, 4]),
      "ert" := TokenInfo(18, "0x701048911b1f1121E33834d3633227A954978d53", 1, [80001])
    ]
  }

  /** Lower-cases one ASCII letter; every other character is kept. */
  function LowerChar(c: char): char {
    if 'A' <= c <= 'Z' then (c as int - 'A' as int + 'a' as int) as char else c
  }

  /** `String.prototype.toLowerCase`, restricted to ASCII. */
  function ToLower(s: string): (r: string)
    ensures |r| == |s|
    ensures forall i :: 0 <= i < |s| ==> r[i] == LowerChar(s[i])
  {
    if s == [] then [] else [LowerChar(s[0])] + ToLower(s[1..])
  }

  /** Looks a symbol up case-insensitively, as `tokenList[token.toLowerCase()]`. */
  function LookupToken(symbol: string): Option<TokenInfo> {
    var key := ToLower(symbol);
    if key in GetTokens() then Some(GetTokens()[key]) else None
  }

  /** Two spellings that differ only in case name the same token. */
  lemma LookupIgnoresCase(a: string, b: string)
    requires |a| == |b|
    requires forall i :: 0 <= i < |a| ==> LowerChar(a[i]) == LowerChar(b[i])
    ensures LookupToken(a) == LookupToken(b)
  {
    assert ToLower(a) == ToLower(b);
  }
}
