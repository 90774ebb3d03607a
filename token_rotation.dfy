/**
 * The `.env` rewrite `handleRefreshTokenUpdate` performs when the Ring API hands out a new
 * refresh token: replace the first `RING_REFRESH_TOKEN=<old>` with the new token, or append
 * a new line when the old entry is not found.
 */
module TokenRotation {
  import opened Wrappers
  import opened Text

  const TokenKey := "RING_REFRESH_TOKEN="

  function TokenEntry(token: string): string {
    TokenKey + token
  }

  /** The early return: nothing is saved without a non-empty old token that differs from the new one. */
  predicate ShouldPersist(newToken: string, oldToken: Option<string>) {
    oldToken.Some? && oldToken.value != "" && newToken != oldToken.value
  }

  lemma EntryHasNoDollar(token: string)
    requires '$' !in token
    ensures '$' !in TokenEntry(token)
  {
  }

  /** The text written back to `.env`. */
  function RewriteEnvText(current: string, oldToken: string, newToken: string): (r: string)
    ensures '$' !in newToken ==> Contains(r, TokenEntry(newToken))
    ensures Contains(current, TokenEntry(oldToken)) && '$' !in newToken
            ==> |r| == |current| - |oldToken| + |newToken|
    ensures !Contains(current, TokenEntry(oldToken)) ==> r == current + "\n" + TokenEntry(newToken)
  {
    var oldEntry, newEntry := TokenEntry(oldToken), TokenEntry(newToken);
    if Contains(current, oldEntry) then
      var r := ReplaceFirst(current, oldEntry, newEntry);
      if '$' in newToken then r
      else
        var i := IndexOf(current, oldEntry).value;
        EntryHasNoDollar(newToken);
        ReplaceFirstLiteral(current, oldEntry, newEntry, i);
        OccursAsPrefix(newEntry, current[i + |oldEntry|..]);
        OccursInSuffix(current[..i], newEntry + current[i + |oldEntry|..], newEntry, 0);
        assert current[..i] + newEntry + current[i + |oldEntry|..]
            == current[..i] + (newEntry + current[i + |oldEntry|..]);
        r
    else
      var r := current + "\n" + newEntry;
      OccursInSuffix(current + "\n", newEntry, newEntry, 0);
      assert OccursAt(newEntry, newEntry, 0);
      r
  }

  /**
   * With a `$`-free new token, the first `RING_REFRESH_TOKEN=<old>` is replaced by
   * `RING_REFRESH_TOKEN=<new>` and the rest of the file is kept as it was.
   */
  lemma RewriteReplacesFirstEntry(current: string, oldToken: string, newToken: string, i: nat)
    requires '$' !in newToken
    requires OccursAt(current, TokenEntry(oldToken), i)
    requires forall j: nat :: j < i ==> !OccursAt(current, TokenEntry(oldToken), j)
    ensures RewriteEnvText(current, oldToken, newToken)
         == current[..i] + TokenEntry(newToken) + current[i + |TokenEntry(oldToken)|..]
  {
    assert Contains(current, TokenEntry(oldToken));
    EntryHasNoDollar(newToken);
    ReplaceFirstLiteral(current, TokenEntry(oldToken), TokenEntry(newToken), i);
  }
}
