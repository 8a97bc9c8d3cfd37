/** What lists served page by page have in common. */
module Paging {
  function Min(a: nat, b: nat): nat {
    if a < b then a else b
  }

  lemma FrontGrows<T>(s: seq<T>, a: nat, b: nat)
    requires a <= b <= |s|
    ensures s[..a] + s[a..b] == s[..b]
  {
  }
}
