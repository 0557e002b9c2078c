/**
 * `BALANCE_KEYWORDS` and the test `any(kw in str(k).lower() for kw in BALANCE_KEYWORDS)`
 * that decides whether a JSON key names a balance.
 */
module Keywords {

  const BalanceKeywords: seq<string> := [
    "balance", "so_du", "sodu", "sodư", "amount", "money", "money_balance",
    "wallet", "wallet_balance", "available", "available_balance", "current_balance",
    "remain", "remaining", "remain_balance", "remaining_balance", "credit", "fund", "funds"
  ]

  /** `str.lower()` on one character: ASCII capitals and the capital U+01AF. */
  function LowerChar(c: char): (r: char)
    ensures 'A' <= c <= 'Z' ==> r as int == c as int + 32
    ensures c == 'Ư' ==> r == 'ư'
    ensures !('A' <= c <= 'Z') && c != 'Ư' ==> r == c
  {
    if 'A' <= c <= 'Z' then (c as int + 32) as char
    else if c == 'Ư' then 'ư'
    else c
  }

  function Lower(s: string): (r: string)
    ensures |r| == |s|
    ensures forall i :: 0 <= i < |s| ==> r[i] == LowerChar(s[i])
  {
    seq(|s|, i requires 0 <= i < |s| => LowerChar(s[i]))
  }

  /** `sub` occurs in `s` starting at position `i`. */
  predicate OccursAt(s: string, sub: string, i: nat)
  {
    i + |sub| <= |s| && s[i..i + |sub|] == sub
  }

  /** Python's `sub in s` on strings: `sub` occurs in `s` as a contiguous block. */
  function Contains(s: string, sub: string): (r: bool)
    ensures r <==> exists i: nat :: OccursAt(s, sub, i)
    decreases |s|
  {
    if |s| < |sub| then false
    else if s[..|sub|] == sub then assert OccursAt(s, sub, 0); true
    else
      var r := Contains(s[1..], sub);
      assert !OccursAt(s, sub, 0);
      assert forall i: nat :: OccursAt(s, sub, i + 1) <==> OccursAt(s[1..], sub, i) by {
        forall i: nat ensures OccursAt(s, sub, i + 1) <==> OccursAt(s[1..], sub, i) {
          if i + 1 + |sub| <= |s| {
            var here, there := s[i + 1..i + 1 + |sub|], s[1..][i..i + |sub|];
            assert forall k :: 0 <= k < |here| ==> here[k] == there[k];
            assert here == there;
          }
        }
      }
      assert (exists i: nat :: OccursAt(s, sub, i)) ==> exists i: nat :: OccursAt(s[1..], sub, i) by {
        if exists i: nat :: OccursAt(s, sub, i) {
          var i: nat :| OccursAt(s, sub, i);
          assert i > 0;
          assert OccursAt(s[1..], sub, i - 1);
        }
      }
      r
  }

  /** Some entry of `keywords` occurs in `lowered`. */
  function AnyKeywordIn(lowered: string, keywords: seq<string>): (r: bool)
    ensures r <==> exists i :: 0 <= i < |keywords| && Contains(lowered, keywords[i])
  {
    if keywords == [] then false
    else if Contains(lowered, keywords[0]) then true
    else
      var r := AnyKeywordIn(lowered, keywords[1..]);
      assert forall i :: 1 <= i < |keywords| ==> keywords[i] == keywords[1..][i - 1];
      r
  }

  /** Whether the key of a dict entry names a balance. */
  predicate IsBalanceKey(key: string): (r: bool)
    ensures r <==> exists i :: 0 <= i < |BalanceKeywords| && Contains(Lower(key), BalanceKeywords[i])
  {
    AnyKeywordIn(Lower(key), BalanceKeywords)
  }

  /** Matching ignores case: a key and its lower-cased form are judged alike. */
  lemma {:induction false} IsBalanceKeyIgnoresCase(key: string)
    ensures IsBalanceKey(Lower(key)) == IsBalanceKey(key)
  {
    assert Lower(Lower(key)) == Lower(key) by {
      forall i | 0 <= i < |key| ensures Lower(Lower(key))[i] == Lower(key)[i] {
        assert LowerChar(LowerChar(key[i])) == LowerChar(key[i]);
      }
    }
  }

  /** Any key that contains "balance" in some mixture of cases is a balance key. */
  lemma {:induction false} BalanceSubstringIsBalanceKey(key: string, i: nat)
    requires i + 7 <= |key|
    requires Lower(key)[i..i + 7] == "balance"
    ensures IsBalanceKey(key)
  {
    assert OccursAt(Lower(key), BalanceKeywords[0], i);
    assert Contains(Lower(key), BalanceKeywords[0]);
  }
}
