/** Python's `str.startswith` and `str.endswith` on `seq<char>`, and the one fact about
    suffixes that the upload-path formula relies on. */
module Strings {

  predicate StartsWith(s: string, prefix: string) {
    |prefix| <= |s| && s[..|prefix|] == prefix
  }

  predicate EndsWith(s: string, suffix: string) {
    |suffix| <= |s| && s[|s| - |suffix|..] == suffix
  }

  /** Whatever follows a known prefix can be read back by dropping the prefix. */
  lemma PrefixThenRest(prefix: string, rest: string)
    ensures StartsWith(prefix + rest, prefix)
    ensures (prefix + rest)[|prefix|..] == rest
  {
  }

  /** When the separator does not occur in `suffix`, a string that ends in
      `sep` followed by `tail` ends with `suffix` exactly when `tail` does: a short
      `tail` cannot borrow characters from before the separator. */
  lemma {:induction false} EndsWithAfterSeparator(head: string, sep: char, tail: string, suffix: string)
    requires sep !in suffix
    ensures EndsWith(head + [sep] + tail, suffix) <==> EndsWith(tail, suffix)
  {
    var s := head + [sep] + tail;
    if |suffix| <= |tail| {
      assert s[|s| - |suffix|..] == tail[|tail| - |suffix|..];
    } else {
      var k := |suffix| - |tail| - 1;
      assert suffix[k] != sep;
      assert |suffix| <= |s| ==> s[|s| - |suffix|..][k] == s[|head|] == sep;
    }
  }
}
