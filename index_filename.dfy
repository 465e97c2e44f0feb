/**
 * The name of the search-index file written for one partition: the first `{dir}` of the
 * configured template is replaced by a suffix derived from the partition key.
 */
module IndexFiles {
  import opened Wrappers
  import opened Strings

  /** The placeholder the template carries. */
  const Placeholder: string := "{dir}"

  /** The text that stands for partition `key`: nothing for the root, else `-` and the key with `/` turned into `-`. */
  function DirSuffix(key: string): string {
    if key == "" then "" else "-" + ReplaceChar(key, '/', '-')
  }

  /** The root key, and only the root key, gets the empty suffix. */
  lemma DirSuffixEmpty(key: string)
    ensures DirSuffix(key) == "" <==> key == ""
  {
    if key != "" {
      assert DirSuffix(key)[0] == '-';
    }
  }

  /** The suffix never introduces a path separator, so the index stays in the output directory. */
  lemma DirSuffixNoSlash(key: string)
    ensures '/' !in DirSuffix(key)
  {
    if key != "" {
      var r := ReplaceChar(key, '/', '-');
      assert forall i :: 0 <= i < |r| ==> r[i] != '/';
      assert DirSuffix(key) == ['-'] + r;
    }
  }

  /**
   * A key without `-` can be read back from its suffix, so two such keys never share a file;
   * `a/b` and `a-b` do (see `DirSuffixCollision`).
   */
  lemma DirSuffixRoundTrip(key: string)
    requires key != "" && '-' !in key
    ensures |DirSuffix(key)| == |key| + 1
    ensures DirSuffix(key)[0] == '-'
    ensures ReplaceChar(DirSuffix(key)[1..], '-', '/') == key
  {
    var r := ReplaceChar(key, '/', '-');
    assert DirSuffix(key)[1..] == r;
    var back := ReplaceChar(r, '-', '/');
    assert forall i :: 0 <= i < |key| ==> back[i] == key[i];
  }

  /** Two different context keys can name the same index file. */
  lemma DirSuffixCollision()
    ensures "a/b" != "a-b" && DirSuffix("a/b") == DirSuffix("a-b") == "-a-b"
  {
    var r := ReplaceChar("a/b", '/', '-');
    assert r[0] == 'a' && r[1] == '-' && r[2] == 'b';
    assert r == "a-b";
    var q := ReplaceChar("a-b", '/', '-');
    assert q[0] == 'a' && q[1] == '-' && q[2] == 'b';
    assert q == "a-b";
  }

  /**
   * The file name of partition `key`: the first `{dir}` of `template` replaced literally by the
   * suffix, the template unchanged when it has no placeholder.
   */
  function IndexFilename(template: string, key: string): (r: string)
    ensures IndexOf(template, Placeholder).None? ==> r == template
  {
    match IndexOf(template, Placeholder)
    case None => template
    case Some(i) => template[..i] + DirSuffix(key) + template[i + |Placeholder|..]
  }

  /** No `{dir}` of `pre + "{dir}" + post` starts inside `pre`: the placeholder after `pre` is the first. */
  predicate FirstPlaceholder(pre: string, post: string) {
    forall i :: 0 <= i < |pre| ==> !OccursAt(pre + Placeholder + post, Placeholder, i)
  }

  /** `indexOf` finds the placeholder after `pre` exactly when no earlier one starts inside `pre`. */
  lemma PlaceholderAfter(pre: string, post: string)
    ensures IndexOf(pre + Placeholder + post, Placeholder) == Some(|pre|) <==> FirstPlaceholder(pre, post)
  {
    var t := pre + Placeholder + post;
    assert t[|pre|..|pre| + 5] == Placeholder;
    assert OccursAt(t, Placeholder, |pre|);
  }

  /** A `pre` without `{` cannot hold the start of a placeholder. */
  lemma NoBraceFirstPlaceholder(pre: string, post: string)
    requires '{' !in pre
    ensures FirstPlaceholder(pre, post)
  {
    var t := pre + Placeholder + post;
    forall i | 0 <= i < |pre| ensures !OccursAt(t, Placeholder, i) {
      assert t[i] == pre[i] && t[i..i + 5][0] == t[i];
    }
  }

  /**
   * With a template `pre + "{dir}" + post` whose first placeholder is the one after `pre`, the
   * name is `pre`, the suffix, then `post` untouched: a later `{dir}` in `post` is left as it is.
   */
  lemma IndexFilenameParts(pre: string, post: string, key: string)
    requires FirstPlaceholder(pre, post)
    ensures IndexFilename(pre + Placeholder + post, key) == pre + DirSuffix(key) + post
  {
    var t := pre + Placeholder + post;
    PlaceholderAfter(pre, post);
    assert t[..|pre|] == pre;
    assert t[|pre| + 5..] == post;
  }

  /** Every template with a placeholder is such a `pre + "{dir}" + post`. */
  lemma PlaceholderSplit(template: string) returns (pre: string, post: string)
    requires IndexOf(template, Placeholder).Some?
    ensures template == pre + Placeholder + post && FirstPlaceholder(pre, post)
  {
    var i := IndexOf(template, Placeholder).value;
    pre, post := template[..i], template[i + |Placeholder|..];
    assert template[i..i + |Placeholder|] == Placeholder;
    assert template == pre + template[i..i + |Placeholder|] + post;
  }

  /**
   * `replacement` as `String.prototype.replace` inserts it when the pattern is a string: `$$`
   * gives `$`, `$&` the matched text, `` $` `` the text before the match, `$'` the text after it,
   * and any other `$` stands for itself (a string pattern has no capture groups).
   */
  function Substitute(replacement: string, matched: string, before: string, after: string): string
    decreases |replacement|
  {
    if |replacement| == 0 then ""
    else if replacement[0] == '$' && |replacement| >= 2 && replacement[1] in "$&`'" then
      var expansion :=
        if replacement[1] == '$' then "$"
        else if replacement[1] == '&' then matched
        else if replacement[1] == '`' then before
        else after;
      expansion + Substitute(replacement[2..], matched, before, after)
    else [replacement[0]] + Substitute(replacement[1..], matched, before, after)
  }

  /** A replacement without `$` is inserted literally. */
  lemma {:induction false} SubstituteLiteral(replacement: string, matched: string, before: string, after: string)
    requires '$' !in replacement
    ensures Substitute(replacement, matched, before, after) == replacement
  {
    if |replacement| > 0 {
      assert '$' !in replacement[1..];
      SubstituteLiteral(replacement[1..], matched, before, after);
      assert replacement == [replacement[0]] + replacement[1..];
    }
  }

  /** The file name as the post-build step computes it, with the replacement's `$` patterns expanded. */
  function IndexFilenameAsWritten(template: string, key: string): (r: string)
    ensures IndexOf(template, Placeholder).None? ==> r == template
  {
    match IndexOf(template, Placeholder)
    case None => template
    case Some(i) =>
      var before := template[..i];
      var after := template[i + |Placeholder|..];
      before + Substitute(DirSuffix(key), Placeholder, before, after) + after
  }

  /** For every key without `$` the name as written is the intended one. */
  lemma AsWrittenAgrees(template: string, key: string)
    requires '$' !in key
    ensures IndexFilenameAsWritten(template, key) == IndexFilename(template, key)
  {
    var s := DirSuffix(key);
    if key != "" {
      var r := ReplaceChar(key, '/', '-');
      assert forall i :: 0 <= i < |r| ==> r[i] != '$';
      assert s == ['-'] + r;
    }
    assert '$' !in s;
    if IndexOf(template, Placeholder).Some? {
      var i := IndexOf(template, Placeholder).value;
      SubstituteLiteral(s, Placeholder, template[..i], template[i + |Placeholder|..]);
    }
  }

  /** A literal text followed by `$&` is inserted as the text followed by the matched text. */
  lemma {:induction false} SubstituteAmpersandLast(literal: string, matched: string, before: string, after: string)
    requires '$' !in literal
    ensures Substitute(literal + "$&", matched, before, after) == literal + matched
  {
    var r := literal + "$&";
    if |literal| == 0 {
      assert r == "$&" && r[2..] == "";
    } else {
      assert r[0] == literal[0] && r[1..] == literal[1..] + "$&";
      assert '$' !in literal[1..];
      SubstituteAmpersandLast(literal[1..], matched, before, after);
      assert literal == [literal[0]] + literal[1..];
    }
  }

  /** The key `docs$&` has no `/`, so its suffix is the key behind a `-`. */
  lemma DollarKeySuffix()
    ensures DirSuffix("docs$&") == "-docs$&"
  {
    var key := "docs$&";
    var r := ReplaceChar(key, '/', '-');
    assert forall i :: 0 <= i < |key| ==> r[i] == key[i];
  }

  /**
   * The context `docs$&` gets, from a template such as `search-index{dir}.json`, the index
   * `search-index-docs{dir}.json` instead of `search-index-docs$&.json`: the `$&` in the key
   * re-inserts the placeholder.
   */
  lemma AsWrittenDollarKey(pre: string, post: string)
    requires FirstPlaceholder(pre, post)
    ensures IndexFilenameAsWritten(pre + Placeholder + post, "docs$&") == pre + "-docs" + Placeholder + post
    ensures IndexFilename(pre + Placeholder + post, "docs$&") == pre + "-docs$&" + post
    ensures IndexFilenameAsWritten(pre + Placeholder + post, "docs$&") != IndexFilename(pre + Placeholder + post, "docs$&")
  {
    var t := pre + Placeholder + post;
    DollarKeySuffix();
    assert IndexOf(t, Placeholder) == Some(|pre|) by { PlaceholderAfter(pre, post); }
    assert IndexFilename(t, "docs$&") == pre + "-docs$&" + post by { IndexFilenameParts(pre, post, "docs$&"); }
    assert t[..|pre|] == pre && t[|pre| + 5..] == post;
    assert Substitute("-docs$&", Placeholder, pre, post) == "-docs" + Placeholder by {
      assert "-docs$&" == "-docs" + "$&";
      SubstituteAmpersandLast("-docs", Placeholder, pre, post);
    }
    assert |IndexFilenameAsWritten(t, "docs$&")| != |IndexFilename(t, "docs$&")|;
  }
}
