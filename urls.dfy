/** `GetBaseAddress`, which both programs carry verbatim (export 149-170, import 504-525). */
module Urls {

  /** `s.StartsWith(prefix)`, compared character by character. */
  predicate StartsWith(s: string, prefix: string) {
    |prefix| <= |s| && s[..|prefix|] == prefix
  }

  /** No '/' occurs in `s` at or after position `from`. */
  predicate NoSlashFrom(s: string, from: nat) {
    forall i :: from <= i < |s| ==> s[i] != '/'
  }

  /** `s.IndexOf("/", start)`: the first position at or after `start` that holds '/', or -1. */
  function IndexOfSlash(s: string, start: nat): (r: int)
    requires start <= |s|
    ensures r == -1 || start <= r < |s|
    ensures r == -1 <==> NoSlashFrom(s, start)
    ensures r >= 0 ==> s[r] == '/' && forall i :: start <= i < r ==> s[i] != '/'
    decreases |s| - start
  {
    if start == |s| then -1
    else if s[start] == '/' then start
    else IndexOfSlash(s, start + 1)
  }

  /**
   * The scheme and authority of `url`: everything before the first '/' that follows
   * "https://" or "http://", or the whole url when no such '/' exists; "" for any other url.
   */
  function GetBaseAddress(url: string): (r: string)
    ensures r <= url
    ensures StartsWith(url, "https://") ==>
              |r| >= 8 && NoSlashFrom(r, 8) && (r == url || url[|r|] == '/')
    ensures !StartsWith(url, "https://") && StartsWith(url, "http://") ==>
              |r| >= 7 && NoSlashFrom(r, 7) && (r == url || url[|r|] == '/')
    ensures !StartsWith(url, "https://") && !StartsWith(url, "http://") ==> r == ""
  {
    var end :=
      if StartsWith(url, "https://") then IndexOfSlash(url, 8)
      else if StartsWith(url, "http://") then IndexOfSlash(url, 7)
      else -2;
    if end == -2 then ""
    else if end < 0 then url
    else url[..end]
  }

  /** The empty string, which the caller reports as an invalid url, comes back exactly when the scheme is missing. */
  lemma BaseAddressEmpty(url: string)
    ensures GetBaseAddress(url) == "" <==> !StartsWith(url, "https://") && !StartsWith(url, "http://")
  {
  }

  /** Applying `GetBaseAddress` to its own result changes nothing, for every input. */
  lemma {:induction false} BaseAddressIdempotent(url: string)
    ensures GetBaseAddress(GetBaseAddress(url)) == GetBaseAddress(url)
  {
    var r := GetBaseAddress(url);
    if StartsWith(url, "https://") {
      assert r[..8] == url[..8];
      assert StartsWith(r, "https://");
      assert IndexOfSlash(r, 8) == -1;
    } else if StartsWith(url, "http://") {
      assert r[..7] == url[..7];
      assert StartsWith(r, "http://");
      assert IndexOfSlash(r, 7) == -1;
    } else {
      assert r == "";
    }
  }
}
