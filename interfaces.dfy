/**
 * The plugin's shared data: the search documents the scanner produces, the plugin options
 * the post-build step reads, and the per-version build data.
 */
module Interfaces {
  import opened Wrappers

  /**
   * One search document (`SearchDocument`), with the scanner's one-letter field names:
   * `i` id, `t` text (page title, heading or content), `u` URL, `h` anchor hash,
   * `p` id of the owning title document, `b` breadcrumb, `s` section title.
   */
  datatype Doc = Doc(
    i: int,
    t: string,
    u: string,
    h: Option<string>,
    p: Option<int>,
    b: Option<seq<string>>,
    s: Option<string>)

  /** The three parallel lists `scanDocuments` returns for one version: `[0]` titles, `[1]` headings, `[2]` contents. */
  datatype Scanned = Scanned(titles: seq<Doc>, headings: seq<Doc>, contents: seq<Doc>) {
    /** The lists in the order `scanDocuments` returns them. */
    function Lists(): (r: seq<seq<Doc>>)
      ensures |r| == 3 && r[0] == titles && r[2] == contents
    {
      [titles, headings, contents]
    }
  }

  /** The plugin options the post-build step reads (`ProcessedPluginOptions`). */
  datatype Options = Options(
    vectorSpaceId: int,
    searchContextByPaths: Option<seq<string>>,
    hideSearchBarWithNoSearchContext: bool,
    useAllContextsWithNoSearchContext: bool)

  /** One documentation version to index: its output directory and what the scanner found for its pages. */
  datatype VersionData = VersionData(outDir: string, scanned: Scanned)

  /** All documents of `lists`, list after list, in scan order. */
  function Flatten(lists: seq<seq<Doc>>): seq<Doc> {
    if |lists| == 0 then [] else Flatten(lists[..|lists| - 1]) + lists[|lists| - 1]
  }

  /** A document is in the flattened sequence exactly when it is in one of the lists. */
  lemma {:induction false} FlattenMembers(lists: seq<seq<Doc>>, d: Doc)
    ensures d in Flatten(lists) <==> exists j :: 0 <= j < |lists| && d in lists[j]
  {
    if |lists| > 0 {
      var init := lists[..|lists| - 1];
      FlattenMembers(init, d);
      if d in Flatten(lists) && d !in lists[|lists| - 1] {
        var j :| 0 <= j < |init| && d in init[j];
        assert d in lists[j];
      }
      if exists j :: 0 <= j < |lists| && d in lists[j] {
        var j :| 0 <= j < |lists| && d in lists[j];
        if j < |lists| - 1 { assert d in init[j]; }
      }
    }
  }
}
