/**
 * The argument list both programs pick their options out of (`List<string>` with
 * `ExtractArgumentValue` and `ExtractArgumentFlag`, identical in the two programs).
 */
module CommandLine {
  import opened Wrappers

  /** `List<string>.IndexOf`: the first position holding `x`, or -1. */
  function IndexOf(s: seq<string>, x: string): (r: int)
    ensures -1 <= r < |s|
    ensures r == -1 <==> x !in s
    ensures 0 <= r ==> s[r] == x && x !in s[..r]
  {
    if s == [] then -1
    else if s[0] == x then 0
    else
      var i := IndexOf(s[1..], x);
      if i == -1 then -1
      else
        assert s[..i + 1] == [s[0]] + s[1..][..i];
        i + 1
  }

  /** The mutable argument list. */
  class ArgumentList {
    var items: seq<string>

    constructor (args: seq<string>)
      ensures items == args
    {
      items := args;
    }

    /**
     * The value that follows the first occurrence of `flagname`; flag and value are removed.
     * An absent flag, or a flag in the last position, yields None and leaves the list alone.
     */
    method ExtractArgumentValue(flagname: string) returns (value: Option<string>)
      modifies this
      ensures var i := IndexOf(old(items), flagname);
        if i < 0 || i >= |old(items)| - 1 then
          value == None && items == old(items)
        else
          value == Some(old(items)[i + 1]) && items == old(items)[..i] + old(items)[i + 2..]
      ensures value.Some? ==> flagname in old(items) && |items| == |old(items)| - 2
    {
      var index := IndexOf(items, flagname);
      if index < 0 || index >= |items| - 1 {
        return None;
      }
      value := Some(items[index + 1]);
      items := items[..index] + items[index + 2..];
    }

    /** Whether `flagname` occurs; if it does, its first occurrence is removed and nothing else. */
    method ExtractArgumentFlag(flagname: string) returns (found: bool)
      modifies this
      ensures found <==> flagname in old(items)
      ensures !found ==> items == old(items)
      ensures found ==>
        var i := IndexOf(old(items), flagname);
        items == old(items)[..i] + old(items)[i + 1..] && flagname !in old(items)[..i]
    {
      var index := IndexOf(items, flagname);
      if index < 0 {
        return false;
      }
      items := items[..index] + items[index + 1..];
      found := true;
    }
  }
}
