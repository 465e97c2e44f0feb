/**
 * The record the post-build step sends to the vector space for one content document: its
 * text, and as attributes its text, section title, URL, anchor hash and the page title and
 * breadcrumb of the title document it belongs to.
 */
module VectorRecords {
  import opened Wrappers
  import opened Interfaces

  /** The attributes object of a record; `Null` is the source's `null`. */
  datatype Attributes = Attributes(
    data: string,
    title: Option<string>,
    url: string,
    hash: Option<string>,
    pageTitle: Nullable<string>,
    breadcrumb: Nullable<Option<seq<string>>>)

  /** The `formattedData` object handed to the ingest call. */
  datatype VectorRecord = VectorRecord(data: string, attributes: Attributes)

  /** `t` is the title document `d` belongs to (`titleDoc.i === doc.p`; an absent `p` matches nothing). */
  predicate ParentOf(t: Doc, d: Doc) {
    d.p == Some(t.i)
  }

  /** `titles[n]` is the first title document `d` belongs to. */
  predicate FirstParent(titles: seq<Doc>, d: Doc, n: int) {
    0 <= n < |titles| && ParentOf(titles[n], d) && forall m :: 0 <= m < n ==> !ParentOf(titles[m], d)
  }

  /** The index of the title document `titles.find` returns for `d`. */
  function FindTitle(titles: seq<Doc>, d: Doc): (r: Option<nat>)
    ensures r.Some? ==> FirstParent(titles, d, r.value)
    ensures r.None? ==> forall n :: 0 <= n < |titles| ==> !ParentOf(titles[n], d)
  {
    if |titles| == 0 then None
    else if ParentOf(titles[0], d) then Some(0)
    else match FindTitle(titles[1..], d)
      case None => None
      case Some(n) => Some(n + 1)
  }

  /** The record built for content document `d` of a version whose title documents are `titles`. */
  function RecordFor(titles: seq<Doc>, d: Doc): (r: VectorRecord)
    ensures r.data == d.t && r.attributes.data == d.t
    ensures r.attributes.title == d.s && r.attributes.url == d.u && r.attributes.hash == d.h
    ensures r.attributes.pageTitle.Null? <==> r.attributes.breadcrumb.Null?
  {
    var parent := FindTitle(titles, d);
    VectorRecord(d.t, Attributes(
      d.t, d.s, d.u, d.h,
      if parent.Some? then NonNull(titles[parent.value].t) else Null,
      if parent.Some? then NonNull(titles[parent.value].b) else Null))
  }

  /**
   * The page title and breadcrumb of a record are those of the first title document the
   * content document belongs to, and both are `null` exactly when it belongs to none.
   */
  lemma RecordParent(titles: seq<Doc>, d: Doc)
    ensures RecordFor(titles, d).attributes.pageTitle.Null? <==>
      forall n :: 0 <= n < |titles| ==> !ParentOf(titles[n], d)
    ensures forall n :: FirstParent(titles, d, n) ==>
      RecordFor(titles, d).attributes.pageTitle == NonNull(titles[n].t) &&
      RecordFor(titles, d).attributes.breadcrumb == NonNull(titles[n].b)
  {
    var parent := FindTitle(titles, d);
    assert forall n :: FirstParent(titles, d, n) ==> parent == Some(n);
  }

  /** A content document without a parent id gets neither page title nor breadcrumb. */
  lemma NoParentIdNoTitle(titles: seq<Doc>, d: Doc)
    requires d.p.None?
    ensures RecordFor(titles, d).attributes.pageTitle == Null
    ensures RecordFor(titles, d).attributes.breadcrumb == Null
  {
    RecordParent(titles, d);
  }

  /**
   * Title documents that are not the parent never change the record, wherever they stand in the
   * list: `extra` may be inserted at any point of `a + b`.
   */
  lemma RecordIgnoresOtherTitles(a: seq<Doc>, extra: seq<Doc>, b: seq<Doc>, d: Doc)
    requires forall n :: 0 <= n < |extra| ==> !ParentOf(extra[n], d)
    ensures RecordFor(a + extra + b, d) == RecordFor(a + b, d)
  {
    var long, short := a + extra + b, a + b;
    // Every document of `long` is one of `extra` or stands in `short`, |extra| places further on.
    forall n | 0 <= n < |long| && !(|a| <= n < |a| + |extra|)
      ensures long[n] == short[if n < |a| then n else n - |extra|]
    {
      if n >= |a| + |extra| { assert long[n] == b[n - |a| - |extra|]; }
    }
    forall n | |a| <= n < |a| + |extra| ensures !ParentOf(long[n], d) {
      assert long[n] == extra[n - |a|];
    }
    match FindTitle(short, d)
    case None =>
      assert FindTitle(long, d).None?;
    case Some(k) =>
      var k2 := if k < |a| then k else k + |extra|;
      assert long[k2] == short[k];
      assert FindTitle(long, d) == Some(k2) by {
        assert FirstParent(long, d, k2);
        var j := FindTitle(long, d).value;
        assert !(j < k2) && !(k2 < j);
      }
  }
}
