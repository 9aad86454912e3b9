/**
 * The three string helpers from Go's standard library that the handler relies on:
 * `strings.HasSuffix`, `strings.Split(s, "/")[0]` and `path.Ext`.
 * Go strings are byte strings; here a character stands for a byte.
 */
module GoStrings {

  /** `strings.HasSuffix(s, suffix)`. */
  predicate HasSuffix(s: string, suffix: string)
  {
    |suffix| <= |s| && s[|s| - |suffix|..] == suffix
  }

  /** `s` has the suffix `suffix` exactly when it is some string followed by `suffix`. */
  lemma HasSuffixIffConcat(s: string, suffix: string)
    ensures HasSuffix(s, suffix) <==> exists front :: s == front + suffix
  {
    if HasSuffix(s, suffix) {
      assert s == s[..|s| - |suffix|] + suffix;
    }
    forall front | s == front + suffix
      ensures HasSuffix(s, suffix)
    {
      assert s[|s| - |suffix|..] == suffix;
    }
  }

  /**
   * `strings.Split(s, "/")[0]`: the text before the first `/`, or all of `s`
   * when it has none. The result is the longest `/`-free prefix of `s`.
   */
  function FirstSegment(s: string): (r: string)
    ensures |r| <= |s| && r == s[..|r|]
    ensures '/' !in r
    ensures |r| < |s| ==> s[|r|] == '/'
  {
    if s == [] || s[0] == '/' then [] else [s[0]] + FirstSegment(s[1..])
  }

  /** A name with no `/` is its own first segment. */
  lemma FirstSegmentOfPlainName(s: string)
    requires '/' !in s
    ensures FirstSegment(s) == s
  {
  }

  /**
   * `path.Ext(p)`: the suffix of `p` that starts at the last `.` of its final
   * `/`-separated element, or "" when that element has no `.`. Like Go's loop,
   * it walks back from the end and stops at the first `.` or `/` it meets.
   */
  function Ext(p: string): (r: string)
    // the extension is a suffix of the path ...
    ensures |r| <= |p| && r == p[|p| - |r|..]
    // ... that starts with its only dot and crosses no separator ...
    ensures r != "" ==> r[0] == '.' && forall i :: 0 < i < |r| ==> r[i] != '.' && r[i] != '/'
    // ... and it is empty only when every dot of the path lies before some separator
    ensures r == "" ==> forall i :: 0 <= i < |p| && p[i] == '.' ==> '/' in p[i..]
    decreases |p|
  {
    if |p| == 0 || p[|p| - 1] == '/' then ""
    else if p[|p| - 1] == '.' then "."
    else
      var e := Ext(p[..|p| - 1]);
      if e == "" then "" else e + [p[|p| - 1]]
  }

  /** A path that ends in a separator has no extension. */
  lemma ExtOfDirectory(p: string)
    requires HasSuffix(p, "/")
    ensures Ext(p) == ""
  {
  }

  /** Only the final element of a path decides its extension. */
  lemma {:induction false} ExtOfFinalElement(dir: string, name: string)
    requires '/' !in name
    ensures Ext(dir + "/" + name) == Ext(name)
    decreases |name|
  {
    if name != [] {
      var p, init, last := dir + "/" + name, name[..|name| - 1], name[|name| - 1];
      assert last != '/' by { assert last in name; }
      assert p == (dir + "/" + init) + [last];
      ExtOfFinalElement(dir, init);
    }
  }

  /** A final element with no dot gives no extension, whatever comes before it. */
  lemma ExtOfUndottedName(dir: string, name: string)
    requires '/' !in name && '.' !in name
    ensures Ext(dir + "/" + name) == ""
  {
    ExtOfFinalElement(dir, name);
  }

  /** A final element "name.tail" whose tail has no dot has the extension ".tail". */
  lemma {:induction false} ExtOfDottedTail(front: string, tail: string)
    requires '.' !in tail && '/' !in tail
    ensures Ext(front + "." + tail) == "." + tail
    decreases |tail|
  {
    var p := front + "." + tail;
    if tail == [] {
      assert p[|p| - 1] == '.';
    } else {
      var init, last := tail[..|tail| - 1], tail[|tail| - 1];
      assert last in tail;
      assert p == (front + "." + init) + [last];
      ExtOfDottedTail(front, init);
      assert "." + init + [last] == "." + tail;
    }
  }

  /** Any path followed by "index.html" has the extension ".html". */
  lemma ExtOfIndexFile(dir: string)
    ensures Ext(dir + "index.html") == ".html"
  {
    assert dir + "index.html" == dir + "index" + "." + "html";
    ExtOfDottedTail(dir + "index", "html");
  }
}
