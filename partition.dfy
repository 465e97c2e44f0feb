/**
 * The context partitioner of the post-build step: it splits one version's scanned document
 * lists into the groups `docsByDirMap` holds, one search index per group.
 */
module Partitioning {
  import opened Wrappers
  import opened Strings
  import opened Interfaces

  /** A JavaScript array of per-type document lists that may have holes (`None`). */
  type Sparse = seq<Option<seq<Doc>>>

  /** One entry of `docsByDirMap`: a partition key and its per-type document lists. */
  datatype Entry = Entry(key: string, docs: seq<seq<Doc>>)

  /** What decides where a document goes: the site's base URL, the configured contexts and the duplication flag. */
  datatype Scope = Scope(baseUrl: string, contexts: seq<string>, useAll: bool)

  /** A group a document may be placed in: the root list or the list of one context. */
  datatype Target = Root | Context(path: string)

  /** The site-relative path `uri` lies under the context `c`. */
  predicate InContext(uri: string, c: string) {
    uri == c || StartsWith(uri, c + "/")
  }

  /** `contexts[n]` is the first context, in configuration order, that `uri` lies under. */
  predicate FirstMatch(uri: string, contexts: seq<string>, n: int) {
    0 <= n < |contexts| && InContext(uri, contexts[n])
    && forall m :: 0 <= m < n ==> !InContext(uri, contexts[m])
  }

  /** The index of the context `searchContextByPaths.find` returns for `uri`. */
  function FindContext(uri: string, contexts: seq<string>): (r: Option<nat>)
    ensures r.Some? ==> FirstMatch(uri, contexts, r.value)
    ensures r.None? ==> forall n :: 0 <= n < |contexts| ==> !InContext(uri, contexts[n])
  {
    if |contexts| == 0 then None
    else if InContext(uri, contexts[0]) then Some(0)
    else match FindContext(uri, contexts[1..])
      case None => None
      case Some(n) => Some(n + 1)
  }

  /**
   * The context a document with URL `u` is placed under, or None when it goes to the root
   * list only: its URL does not start with the base URL, no context matches, or the first
   * matching context is the empty string (which the source's truthiness test rejects).
   */
  function ContextOf(u: string, scope: Scope): Option<string> {
    if StartsWith(u, scope.baseUrl) then
      var uri := u[|scope.baseUrl|..];
      match FindContext(uri, scope.contexts)
      case None => None
      case Some(n) => if scope.contexts[n] != "" then Some(scope.contexts[n]) else None
    else None
  }

  /**
   * A document is placed under context `c` exactly when its URL starts with the base URL and
   * `c` is the first configured context, non-empty, that its relative path lies under.
   */
  lemma ContextOfFirstMatch(u: string, scope: Scope, c: string)
    ensures ContextOf(u, scope) == Some(c) <==>
      StartsWith(u, scope.baseUrl) && c != "" &&
      exists n :: FirstMatch(u[|scope.baseUrl|..], scope.contexts, n) && scope.contexts[n] == c
  {
    if StartsWith(u, scope.baseUrl) {
      var uri := u[|scope.baseUrl|..];
      var found := FindContext(uri, scope.contexts);
      assert forall m :: FirstMatch(uri, scope.contexts, m) ==> found == Some(m);
    }
  }

  /**
   * A document goes to the root list only when its URL does not start with the base URL, no
   * context matches its relative path, or the first match is the empty context.
   */
  lemma ContextOfNone(u: string, scope: Scope)
    ensures ContextOf(u, scope).None? <==>
      !StartsWith(u, scope.baseUrl) ||
      (forall n :: 0 <= n < |scope.contexts| ==> !InContext(u[|scope.baseUrl|..], scope.contexts[n])) ||
      exists n :: FirstMatch(u[|scope.baseUrl|..], scope.contexts, n) && scope.contexts[n] == ""
  {
    if StartsWith(u, scope.baseUrl) {
      var uri := u[|scope.baseUrl|..];
      var found := FindContext(uri, scope.contexts);
      assert forall m :: FirstMatch(uri, scope.contexts, m) ==> found == Some(m);
    }
  }

  /** The document `d` is pushed onto the list of `target`. */
  predicate Keeps(target: Target, d: Doc, scope: Scope) {
    match target
    case Root => ContextOf(d.u, scope).None? || scope.useAll
    case Context(c) => ContextOf(d.u, scope) == Some(c)
  }

  /** The documents of `docs` that `target` receives, in scan order. */
  function Select(docs: seq<Doc>, target: Target, scope: Scope): seq<Doc> {
    if |docs| == 0 then []
    else
      var last := docs[|docs| - 1];
      Select(docs[..|docs| - 1], target, scope) + (if Keeps(target, last, scope) then [last] else [])
  }

  /** A document is selected exactly when it is among `docs` and the target keeps it. */
  lemma {:induction false} SelectMembers(docs: seq<Doc>, target: Target, scope: Scope, d: Doc)
    ensures d in Select(docs, target, scope) <==> d in docs && Keeps(target, d, scope)
  {
    if |docs| > 0 {
      SelectMembers(docs[..|docs| - 1], target, scope, d);
      assert docs == docs[..|docs| - 1] + [docs[|docs| - 1]];
    }
  }

  /** Selecting from one more document of the list. */
  lemma SelectStep(docs: seq<Doc>, k: nat, target: Target, scope: Scope)
    requires k < |docs|
    ensures Keeps(target, docs[k], scope) ==> Select(docs[..k + 1], target, scope) == Select(docs[..k], target, scope) + [docs[k]]
    ensures !Keeps(target, docs[k], scope) ==> Select(docs[..k + 1], target, scope) == Select(docs[..k], target, scope)
  {
    assert docs[..k + 1][..k] == docs[..k];
    assert Select(docs[..k], target, scope) + [] == Select(docs[..k], target, scope);
  }

  /** Selection is applied piecewise, so it keeps the scan order of the documents. */
  lemma {:induction false} SelectAppend(a: seq<Doc>, b: seq<Doc>, target: Target, scope: Scope)
    ensures Select(a + b, target, scope) == Select(a, target, scope) + Select(b, target, scope)
  {
    if |b| > 0 {
      var init := b[..|b| - 1];
      assert (a + b)[..|a + b| - 1] == a + init;
      SelectAppend(a, init, target, scope);
    } else {
      assert a + b == a;
    }
  }

  /** The slot a list occupies in a sparse array: a hole when nothing was pushed. */
  function Slot(docs: seq<Doc>): (r: Option<seq<Doc>>)
    ensures r.None? <==> docs == []
  {
    if docs == [] then None else Some(docs)
  }

  /** `sp[j]`, where reading past the end gives a hole as in JavaScript. */
  function SlotAt(sp: Sparse, j: nat): Option<seq<Doc>> {
    if j < |sp| then sp[j] else None
  }

  /** `sp[j] = docs`, which extends the array with holes when `j` is past its end. */
  function SetSlot(sp: Sparse, j: nat, docs: seq<Doc>): (r: Sparse)
    ensures |r| == if j < |sp| then |sp| else j + 1
    ensures SlotAt(r, j) == Some(docs)
    ensures forall n: nat :: n != j ==> SlotAt(r, n) == SlotAt(sp, n)
  {
    if j < |sp| then sp[j := Some(docs)]
    else sp + seq(j - |sp|, _ => None) + [Some(docs)]
  }

  /** `v.filter((d) => !!d)`: the array without its holes (an empty list is kept). */
  function Compact(sp: Sparse): seq<seq<Doc>> {
    if |sp| == 0 then []
    else Compact(sp[..|sp| - 1]) + (match sp[|sp| - 1] case None => [] case Some(x) => [x])
  }

  /** Compaction keeps exactly the lists that fill a slot. */
  lemma {:induction false} CompactMembers(sp: Sparse, x: seq<Doc>)
    ensures x in Compact(sp) <==> Some(x) in sp
  {
    if |sp| > 0 {
      CompactMembers(sp[..|sp| - 1], x);
      assert sp == sp[..|sp| - 1] + [sp[|sp| - 1]];
    }
  }

  /** Compaction is applied piecewise, so the surviving slots keep their order. */
  lemma {:induction false} CompactAppend(a: Sparse, b: Sparse)
    ensures Compact(a + b) == Compact(a) + Compact(b)
  {
    if |b| > 0 {
      var init := b[..|b| - 1];
      assert (a + b)[..|a + b| - 1] == a + init;
      CompactAppend(a, init);
    } else {
      assert a + b == a;
    }
  }

  /** An array without holes compacts to its own lists. */
  lemma {:induction false} CompactFull(sp: Sparse)
    requires forall n :: 0 <= n < |sp| ==> sp[n].Some?
    ensures Compact(sp) == seq(|sp|, n requires 0 <= n < |sp| => sp[n].value)
  {
    if |sp| > 0 {
      CompactFull(sp[..|sp| - 1]);
    }
  }

  /** Holes past the end of a sparse array do not change its compaction. */
  lemma {:induction false} CompactPadded(sp: Sparse, n: nat)
    requires |sp| <= n
    ensures Compact(seq(n, j requires 0 <= j < n => SlotAt(sp, j))) == Compact(sp)
  {
    var padded := seq(n, j requires 0 <= j < n => SlotAt(sp, j));
    if n == |sp| {
      assert padded == sp;
    } else {
      CompactPadded(sp, n - 1);
      assert padded[..n - 1] == seq(n - 1, j requires 0 <= j < n - 1 => SlotAt(sp, j));
    }
  }

  /** The contexts of the matched documents of `docs`, in scan order and with repeats. */
  function Matched(docs: seq<Doc>, scope: Scope): seq<string> {
    if |docs| == 0 then []
    else
      var last := docs[|docs| - 1];
      Matched(docs[..|docs| - 1], scope) + (match ContextOf(last.u, scope) case None => [] case Some(c) => [c])
  }

  /** A context is among the matched ones exactly when some document is placed under it. */
  lemma {:induction false} MatchedMembers(docs: seq<Doc>, scope: Scope, c: string)
    ensures c in Matched(docs, scope) <==> exists d :: d in docs && ContextOf(d.u, scope) == Some(c)
  {
    if |docs| > 0 {
      var init := docs[..|docs| - 1];
      MatchedMembers(init, scope, c);
      assert docs == init + [docs[|docs| - 1]];
      if exists d :: d in docs && ContextOf(d.u, scope) == Some(c) {
        var d :| d in docs && ContextOf(d.u, scope) == Some(c);
        if d != docs[|docs| - 1] { assert d in init; }
      }
    }
  }

  /** No element occurs twice. */
  predicate Distinct(s: seq<string>) {
    forall a, b :: 0 <= a < b < |s| ==> s[a] != s[b]
  }

  /** `s` without repeats, each element at its first occurrence: the order `Map.set` inserts keys in. */
  function Dedup(s: seq<string>): seq<string> {
    if |s| == 0 then []
    else
      var init := Dedup(s[..|s| - 1]);
      if s[|s| - 1] in init then init else init + [s[|s| - 1]]
  }

  /** `Dedup` has no repeats and loses or invents no element. */
  lemma {:induction false} DedupMembers(s: seq<string>)
    ensures Distinct(Dedup(s))
    ensures forall x :: x in Dedup(s) <==> x in s
  {
    if |s| > 0 {
      DedupMembers(s[..|s| - 1]);
      assert s == s[..|s| - 1] + [s[|s| - 1]];
    }
  }

  /** Inserting one more key. */
  lemma DedupSnoc(s: seq<string>, x: string)
    ensures Dedup(s + [x]) == if x in Dedup(s) then Dedup(s) else Dedup(s) + [x]
  {
    assert (s + [x])[..|s|] == s;
  }

  /** A key keeps the position it got when first inserted: more input only appends keys. */
  lemma {:induction false} DedupPrefix(s: seq<string>, t: seq<string>)
    ensures Dedup(s) <= Dedup(s + t)
  {
    if |t| > 0 {
      var init := t[..|t| - 1];
      assert (s + t)[..|s + t| - 1] == s + init;
      DedupPrefix(s, init);
    } else {
      assert s + t == s;
    }
  }

  /** The per-type lists of the root partition: every slot, possibly empty. */
  function RootDocs(all: seq<seq<Doc>>, scope: Scope): seq<seq<Doc>> {
    seq(|all|, j requires 0 <= j < |all| => Select(all[j], Root, scope))
  }

  /** The per-type lists of context `c` after compaction: the non-empty ones, in type order. */
  function ContextDocs(all: seq<seq<Doc>>, scope: Scope, c: string): seq<seq<Doc>> {
    Compact(seq(|all|, j requires 0 <= j < |all| => Slot(Select(all[j], Context(c), scope))))
  }

  /** The context keys of `docsByDirMap`, in the order documents first matched them. */
  function ContextKeys(all: seq<seq<Doc>>, scope: Scope): seq<string> {
    Dedup(Matched(Flatten(all), scope))
  }

  /**
   * The entries of `docsByDirMap` after compaction, in insertion order: the root key `""`
   * (only when it is emitted), then one entry per matched context. Without contexts the
   * only entry is `""` with the scanned lists unchanged.
   */
  function Partitions(all: seq<seq<Doc>>, options: Options, baseUrl: string): seq<Entry> {
    match options.searchContextByPaths
    case None => [Entry("", all)]
    case Some(contexts) =>
      var scope := Scope(baseUrl, contexts, options.useAllContextsWithNoSearchContext);
      var keys := ContextKeys(all, scope);
      (if options.hideSearchBarWithNoSearchContext then [] else [Entry("", RootDocs(all, scope))])
      + seq(|keys|, i requires 0 <= i < |keys| => Entry(keys[i], ContextDocs(all, scope, keys[i])))
  }

  /**
   * Without contexts the only partition is `""` holding the scanned lists; with contexts the
   * root key is present exactly when the search bar is not hidden; no key occurs twice.
   */
  lemma PartitionKeys(all: seq<seq<Doc>>, options: Options, baseUrl: string)
    ensures options.searchContextByPaths.None? ==> Partitions(all, options, baseUrl) == [Entry("", all)]
    ensures options.searchContextByPaths.Some? ==>
      var r := Partitions(all, options, baseUrl);
      (exists i :: 0 <= i < |r| && r[i].key == "") <==> !options.hideSearchBarWithNoSearchContext
    ensures
      var r := Partitions(all, options, baseUrl);
      forall a, b :: 0 <= a < b < |r| ==> r[a].key != r[b].key
  {
    if options.searchContextByPaths.Some? {
      var scope := Scope(baseUrl, options.searchContextByPaths.value, options.useAllContextsWithNoSearchContext);
      var keys := ContextKeys(all, scope);
      var r := Partitions(all, options, baseUrl);
      PartitionsAt(all, options, baseUrl);
      var offset := if options.hideSearchBarWithNoSearchContext then 0 else 1;
      DedupMembers(Matched(Flatten(all), scope));
      ContextKeysNonEmpty(all, scope);
      assert forall i :: offset <= i < |r| ==> r[i].key == keys[i - offset];
      EntryKeysDistinct(r, offset, keys);
    }
  }

  /** An optional root entry followed by entries with distinct non-empty keys has distinct keys. */
  lemma EntryKeysDistinct(r: seq<Entry>, offset: nat, keys: seq<string>)
    requires offset <= 1 && |r| == offset + |keys|
    requires offset == 1 ==> r[0].key == ""
    requires forall i :: offset <= i < |r| ==> r[i].key == keys[i - offset]
    requires Distinct(keys) && forall n :: 0 <= n < |keys| ==> keys[n] != ""
    ensures (exists i :: 0 <= i < |r| && r[i].key == "") <==> offset == 1
    ensures forall a, b :: 0 <= a < b < |r| ==> r[a].key != r[b].key
  {
    forall a, b | 0 <= a < b < |r| ensures r[a].key != r[b].key {
      if a >= offset {
        assert r[a].key == keys[a - offset] && r[b].key == keys[b - offset];
      }
    }
  }

  /** `d` is in one of the per-type lists of the entry keyed `key`. */
  ghost predicate InPartition(entries: seq<Entry>, key: string, d: Doc) {
    exists i, m :: 0 <= i < |entries| && entries[i].key == key && 0 <= m < |entries[i].docs| && d in entries[i].docs[m]
  }

  /** A context's compacted lists hold exactly the scanned documents placed under it. */
  lemma ContextDocsMembers(all: seq<seq<Doc>>, scope: Scope, c: string, d: Doc)
    ensures (exists m :: 0 <= m < |ContextDocs(all, scope, c)| && d in ContextDocs(all, scope, c)[m]) <==>
      (exists j :: 0 <= j < |all| && d in all[j]) && Keeps(Context(c), d, scope)
  {
    var slots := seq(|all|, j requires 0 <= j < |all| => Slot(Select(all[j], Context(c), scope)));
    var docs := ContextDocs(all, scope, c);
    if exists m :: 0 <= m < |docs| && d in docs[m] {
      var m :| 0 <= m < |docs| && d in docs[m];
      CompactMembers(slots, docs[m]);
      var j :| 0 <= j < |slots| && slots[j] == Some(docs[m]);
      SelectMembers(all[j], Context(c), scope, d);
    }
    if (exists j :: 0 <= j < |all| && d in all[j]) && Keeps(Context(c), d, scope) {
      var j :| 0 <= j < |all| && d in all[j];
      SelectMembers(all[j], Context(c), scope, d);
      var x := Select(all[j], Context(c), scope);
      assert slots[j] == Some(x);
      CompactMembers(slots, x);
      var m :| 0 <= m < |docs| && docs[m] == x;
    }
  }

  /** The key of every context entry is a non-empty context. */
  lemma ContextKeysNonEmpty(all: seq<seq<Doc>>, scope: Scope)
    ensures forall n :: 0 <= n < |ContextKeys(all, scope)| ==> ContextKeys(all, scope)[n] != ""
  {
    var keys := ContextKeys(all, scope);
    DedupMembers(Matched(Flatten(all), scope));
    forall n | 0 <= n < |keys| ensures keys[n] != "" {
      MatchedMembers(Flatten(all), scope, keys[n]);
    }
  }

  /** A scanned document is in the root partition exactly when the root is emitted and keeps it. */
  lemma RootPlacement(all: seq<seq<Doc>>, options: Options, baseUrl: string, j: int, d: Doc)
    requires options.searchContextByPaths.Some?
    requires 0 <= j < |all| && d in all[j]
    ensures
      var scope := Scope(baseUrl, options.searchContextByPaths.value, options.useAllContextsWithNoSearchContext);
      InPartition(Partitions(all, options, baseUrl), "", d) <==>
        !options.hideSearchBarWithNoSearchContext && (ContextOf(d.u, scope).None? || scope.useAll)
  {
    var scope := Scope(baseUrl, options.searchContextByPaths.value, options.useAllContextsWithNoSearchContext);
    var r := Partitions(all, options, baseUrl);
    PartitionsAt(all, options, baseUrl);
    ContextKeysNonEmpty(all, scope);
    if InPartition(r, "", d) {
      var i, m :| 0 <= i < |r| && r[i].key == "" && 0 <= m < |r[i].docs| && d in r[i].docs[m];
      SelectMembers(all[m], Root, scope, d);
    }
    if !options.hideSearchBarWithNoSearchContext && (ContextOf(d.u, scope).None? || scope.useAll) {
      SelectMembers(all[j], Root, scope, d);
      assert d in r[0].docs[j];
    }
  }

  /** A document found under a context key matched that context. */
  lemma ContextPlacementSound(all: seq<seq<Doc>>, options: Options, baseUrl: string, d: Doc, c: string)
    requires options.searchContextByPaths.Some?
    requires c != "" && InPartition(Partitions(all, options, baseUrl), c, d)
    ensures ContextOf(d.u, Scope(baseUrl, options.searchContextByPaths.value, options.useAllContextsWithNoSearchContext)) == Some(c)
  {
    var scope := Scope(baseUrl, options.searchContextByPaths.value, options.useAllContextsWithNoSearchContext);
    var r := Partitions(all, options, baseUrl);
    var i, m :| 0 <= i < |r| && r[i].key == c && 0 <= m < |r[i].docs| && d in r[i].docs[m];
    if !options.hideSearchBarWithNoSearchContext {
      PartitionsRootEntry(all, options, baseUrl);
    }
    PartitionsEntry(all, options, baseUrl, i);
    ContextDocsMembers(all, scope, c, d);
  }

  /** The context a scanned document matched is one of the context keys. */
  lemma MatchedIsKey(all: seq<seq<Doc>>, scope: Scope, j: int, d: Doc, c: string)
    requires 0 <= j < |all| && d in all[j] && ContextOf(d.u, scope) == Some(c)
    ensures c in ContextKeys(all, scope)
  {
    FlattenMembers(all, d);
    MatchedMembers(Flatten(all), scope, c);
    DedupMembers(Matched(Flatten(all), scope));
  }

  /** A scanned document that matched a context is found under that context's key. */
  lemma ContextPlacementComplete(all: seq<seq<Doc>>, options: Options, baseUrl: string, j: int, d: Doc, c: string)
    requires options.searchContextByPaths.Some?
    requires 0 <= j < |all| && d in all[j]
    requires ContextOf(d.u, Scope(baseUrl, options.searchContextByPaths.value, options.useAllContextsWithNoSearchContext)) == Some(c)
    ensures InPartition(Partitions(all, options, baseUrl), c, d)
  {
    var scope := Scope(baseUrl, options.searchContextByPaths.value, options.useAllContextsWithNoSearchContext);
    var keys := ContextKeys(all, scope);
    var offset := if options.hideSearchBarWithNoSearchContext then 0 else 1;
    MatchedIsKey(all, scope, j, d, c);
    var n :| 0 <= n < |keys| && keys[n] == c;
    ContextDocsMembers(all, scope, c, d);
    var docs := ContextDocs(all, scope, c);
    var m :| 0 <= m < |docs| && d in docs[m];
    PartitionsContextEntry(all, options, baseUrl, n);
  }

  /**
   * Where one scanned document ends up: in the root partition exactly when the root is emitted
   * and the document matched no context or matched documents are duplicated; under a context
   * key exactly when that is the context it matched.
   */
  lemma DocumentPlacement(all: seq<seq<Doc>>, options: Options, baseUrl: string, j: int, d: Doc)
    requires options.searchContextByPaths.Some?
    requires 0 <= j < |all| && d in all[j]
    ensures
      var scope := Scope(baseUrl, options.searchContextByPaths.value, options.useAllContextsWithNoSearchContext);
      var r := Partitions(all, options, baseUrl);
      && (InPartition(r, "", d) <==>
            !options.hideSearchBarWithNoSearchContext && (ContextOf(d.u, scope).None? || scope.useAll))
      && (forall c :: c != "" ==> (InPartition(r, c, d) <==> ContextOf(d.u, scope) == Some(c)))
  {
    RootPlacement(all, options, baseUrl, j, d);
    forall c | c != ""
      ensures InPartition(Partitions(all, options, baseUrl), c, d) <==>
        ContextOf(d.u, Scope(baseUrl, options.searchContextByPaths.value, options.useAllContextsWithNoSearchContext)) == Some(c)
    {
      if InPartition(Partitions(all, options, baseUrl), c, d) {
        ContextPlacementSound(all, options, baseUrl, d, c);
      }
      if ContextOf(d.u, Scope(baseUrl, options.searchContextByPaths.value, options.useAllContextsWithNoSearchContext)) == Some(c) {
        ContextPlacementComplete(all, options, baseUrl, j, d, c);
      }
    }
  }

  /** With both flags false, every scanned document is in exactly one partition. */
  lemma ExactlyOnePartition(all: seq<seq<Doc>>, options: Options, baseUrl: string, j: int, d: Doc)
    requires options.searchContextByPaths.Some?
    requires !options.hideSearchBarWithNoSearchContext && !options.useAllContextsWithNoSearchContext
    requires 0 <= j < |all| && d in all[j]
    ensures
      var r := Partitions(all, options, baseUrl);
      exists key :: InPartition(r, key, d) && forall other :: InPartition(r, other, d) ==> other == key
  {
    var scope := Scope(baseUrl, options.searchContextByPaths.value, options.useAllContextsWithNoSearchContext);
    DocumentPlacement(all, options, baseUrl, j, d);
    var key := match ContextOf(d.u, scope) case None => "" case Some(c) => c;
    assert InPartition(Partitions(all, options, baseUrl), key, d);
  }

  /** With the search bar hidden, a document that matched no context is in no partition. */
  lemma HiddenUnmatched(all: seq<seq<Doc>>, options: Options, baseUrl: string, j: int, d: Doc)
    requires options.searchContextByPaths.Some? && options.hideSearchBarWithNoSearchContext
    requires 0 <= j < |all| && d in all[j]
    requires ContextOf(d.u, Scope(baseUrl, options.searchContextByPaths.value, options.useAllContextsWithNoSearchContext)).None?
    ensures forall key :: !InPartition(Partitions(all, options, baseUrl), key, d)
  {
    DocumentPlacement(all, options, baseUrl, j, d);
  }

  /**
   * Compaction keeps, type by type and in type order, the lists a context received a
   * document in: the lists of two runs of types are the lists of each run, and a single
   * type contributes its list exactly when that list is not empty.
   */
  lemma ContextDocsByType(a: seq<seq<Doc>>, b: seq<seq<Doc>>, scope: Scope, c: string)
    ensures ContextDocs(a + b, scope, c) == ContextDocs(a, scope, c) + ContextDocs(b, scope, c)
    ensures |a| == 1 ==>
      ContextDocs(a, scope, c) == if Select(a[0], Context(c), scope) == [] then [] else [Select(a[0], Context(c), scope)]
  {
    var ab := a + b;
    var sa := seq(|a|, j requires 0 <= j < |a| => Slot(Select(a[j], Context(c), scope)));
    var sb := seq(|b|, j requires 0 <= j < |b| => Slot(Select(b[j], Context(c), scope)));
    assert seq(|ab|, j requires 0 <= j < |ab| => Slot(Select(ab[j], Context(c), scope))) == sa + sb;
    CompactAppend(sa, sb);
    if |a| == 1 {
      assert sa[..0] == [];
    }
  }

  /** The key order is fixed by the documents scanned first: more documents only append keys. */
  lemma ContextKeysGrow(a: seq<seq<Doc>>, b: seq<seq<Doc>>, scope: Scope)
    ensures ContextKeys(a, scope) <= ContextKeys(a + b, scope)
  {
    FlattenAppend(a, b);
    MatchedAppend(Flatten(a), Flatten(b), scope);
    DedupPrefix(Matched(Flatten(a), scope), Matched(Flatten(b), scope));
  }

  lemma {:induction false} FlattenAppend(a: seq<seq<Doc>>, b: seq<seq<Doc>>)
    ensures Flatten(a + b) == Flatten(a) + Flatten(b)
  {
    if |b| == 0 {
      assert a + b == a;
    } else {
      var init := b[..|b| - 1];
      assert (a + b)[..|a + b| - 1] == a + init;
      FlattenAppend(a, init);
    }
  }

  lemma {:induction false} MatchedAppend(a: seq<Doc>, b: seq<Doc>, scope: Scope)
    ensures Matched(a + b, scope) == Matched(a, scope) + Matched(b, scope)
  {
    if |b| == 0 {
      assert a + b == a;
    } else {
      var init := b[..|b| - 1];
      assert (a + b)[..|a + b| - 1] == a + init;
      MatchedAppend(a, init, scope);
    }
  }

  /** The part of list `n` the partitioning loop has visited when it is at document `k` of list `j`. */
  ghost function Seen(all: seq<seq<Doc>>, j: nat, k: nat, n: nat): seq<Doc>
    requires n < |all|
  {
    if n < j then all[n]
    else if n == j && k <= |all[n]| then all[n][..k]
    else []
  }

  /** All documents the partitioning loop has visited, in scan order. */
  ghost function Visited(all: seq<seq<Doc>>, j: nat, k: nat): seq<Doc>
    requires j <= |all|
  {
    Flatten(all[..j]) + (if j < |all| && k <= |all[j]| then all[j][..k] else [])
  }

  /** The per-context sparse arrays agree with the documents visited so far. */
  ghost predicate DirsAgree(all: seq<seq<Doc>>, scope: Scope, j: nat, k: nat, dirs: map<string, Sparse>) {
    && (forall c :: c in dirs ==> |dirs[c]| <= j + 1)
    && DirsSlots(all, scope, j, k, dirs)
    && DirsEmpty(all, scope, j, k, dirs)
  }
  ghost predicate DirsSlots(all: seq<seq<Doc>>, scope: Scope, j: nat, k: nat, dirs: map<string, Sparse>) {
    forall c, n :: c in dirs && 0 <= n < |all| ==>
          SlotAt(dirs[c], n) == Slot(Select(Seen(all, j, k, n), Context(c), scope))
  }
  ghost predicate DirsEmpty(all: seq<seq<Doc>>, scope: Scope, j: nat, k: nat, dirs: map<string, Sparse>) {
    forall c, n :: c !in dirs && 0 <= n < |all| ==>
          Select(Seen(all, j, k, n), Context(c), scope) == []
  }

  lemma SeenStep(all: seq<seq<Doc>>, scope: Scope, j: nat, k: nat, target: Target, n: nat)
    requires j < |all| && k < |all[j]| && n < |all|
    ensures Select(Seen(all, j, k + 1, n), target, scope) ==
      if n == j && Keeps(target, all[j][k], scope)
      then Select(Seen(all, j, k, n), target, scope) + [all[j][k]]
      else Select(Seen(all, j, k, n), target, scope)
  {
    if n == j {
      assert all[j][..k + 1][..k] == all[j][..k];
    }
  }

  /** Pushing a matched document onto its context's sparse array keeps the arrays in agreement. */
  lemma DirsStepMatched(all: seq<seq<Doc>>, scope: Scope, j: nat, k: nat, dirs: map<string, Sparse>, c: string)
    requires j < |all| && k < |all[j]|
    requires DirsAgree(all, scope, j, k, dirs)
    requires ContextOf(all[j][k].u, scope) == Some(c)
    ensures
      var dirs0 := if c in dirs then dirs else dirs[c := []];
      var sp := dirs0[c];
      var cur := if SlotAt(sp, j).Some? then SlotAt(sp, j).value else [];
      DirsAgree(all, scope, j, k + 1, dirs0[c := SetSlot(sp, j, cur + [all[j][k]])])
  {
    var k1 := k + 1;
    var dirs0 := if c in dirs then dirs else dirs[c := []];
    var sp := dirs0[c];
    var cur := if SlotAt(sp, j).Some? then SlotAt(sp, j).value else [];
    var dirs1 := dirs0[c := SetSlot(sp, j, cur + [all[j][k]])];
    forall c', n | c' in dirs1 && 0 <= n < |all|
      ensures SlotAt(dirs1[c'], n) == Slot(Select(Seen(all, j, k1, n), Context(c'), scope))
    {
      SeenStep(all, scope, j, k, Context(c'), n);
    }
    forall c', n | c' !in dirs1 && 0 <= n < |all|
      ensures Select(Seen(all, j, k1, n), Context(c'), scope) == []
    {
      SeenStep(all, scope, j, k, Context(c'), n);
    }
  }

  /** A document placed under no context leaves the sparse arrays in agreement. */
  lemma DirsStepUnmatched(all: seq<seq<Doc>>, scope: Scope, j: nat, k: nat, dirs: map<string, Sparse>)
    requires j < |all| && k < |all[j]|
    requires DirsAgree(all, scope, j, k, dirs)
    requires ContextOf(all[j][k].u, scope).None?
    ensures DirsAgree(all, scope, j, k + 1, dirs)
  {
    var k1 := k + 1;
    forall c', n | c' in dirs && 0 <= n < |all|
      ensures SlotAt(dirs[c'], n) == Slot(Select(Seen(all, j, k1, n), Context(c'), scope))
    {
      SeenStep(all, scope, j, k, Context(c'), n);
    }
    forall c', n | c' !in dirs && 0 <= n < |all|
      ensures Select(Seen(all, j, k1, n), Context(c'), scope) == []
    {
      SeenStep(all, scope, j, k, Context(c'), n);
    }
  }

  /** Moving on to the next document grows the visited sequence by that document. */
  lemma VisitedStep(all: seq<seq<Doc>>, scope: Scope, j: nat, k: nat)
    requires j < |all| && k < |all[j]|
    ensures ContextOf(all[j][k].u, scope).None? ==>
      Matched(Visited(all, j, k + 1), scope) == Matched(Visited(all, j, k), scope)
    ensures ContextOf(all[j][k].u, scope).Some? ==>
      Matched(Visited(all, j, k + 1), scope) == Matched(Visited(all, j, k), scope) + [ContextOf(all[j][k].u, scope).value]
  {
    assert Matched(Visited(all, j, k), scope) + [] == Matched(Visited(all, j, k), scope);
    var v := Visited(all, j, k);
    assert all[j][..k + 1] == all[j][..k] + [all[j][k]];
    assert Visited(all, j, k + 1) == v + [all[j][k]];
    assert (v + [all[j][k]])[..|v|] == v;
  }

  /** Finishing list `j` is the same as starting list `j + 1`. */
  lemma ListDone(all: seq<seq<Doc>>, scope: Scope, j: nat, dirs: map<string, Sparse>)
    requires j < |all|
    requires DirsAgree(all, scope, j, |all[j]|, dirs)
    ensures Visited(all, j, |all[j]|) == Visited(all, j + 1, 0)
    ensures DirsAgree(all, scope, j + 1, 0, dirs)
  {
    var j1, kEnd := j + 1, |all[j]|;
    assert all[j][..kEnd] == all[j];
    assert all[..j1][..j] == all[..j];
    forall c, n | c in dirs && 0 <= n < |all|
      ensures SlotAt(dirs[c], n) == Slot(Select(Seen(all, j1, 0, n), Context(c), scope))
    {
      assert Seen(all, j, kEnd, n) == Seen(all, j1, 0, n);
    }
    forall c, n | c !in dirs && 0 <= n < |all|
      ensures Select(Seen(all, j1, 0, n), Context(c), scope) == []
    {
      assert Seen(all, j, kEnd, n) == Seen(all, j1, 0, n);
    }
  }

  /** The placement state before list `j`: lists `0..j-1` are placed. */
  ghost predicate PlacedBefore(all: seq<seq<Doc>>, scope: Scope, j: nat,
                               rootAllDocs: Sparse, dirs: map<string, Sparse>, keys: seq<string>) {
    && j <= |all|
    && |rootAllDocs| == j
    && (forall n :: 0 <= n < j ==> rootAllDocs[n] == Some(Select(all[n], Root, scope)))
    && keys == Dedup(Matched(Visited(all, j, 0), scope))
    && (forall c :: c in dirs <==> c in keys)
    && (forall c :: c in dirs ==> |dirs[c]| <= j)
    && DirsAgree(all, scope, j, 0, dirs)
  }

  /**
   * One pass of the inner loop (lines 87-111) over list `j`: the root slot `j` is created,
   * then each document is pushed to its context's sparse array, and to the root list unless
   * it matched a context and matched documents are not duplicated (the `continue`).
   */
  method PlaceList(all: seq<seq<Doc>>, scope: Scope, j: nat,
                   rootAllDocs0: Sparse, dirs0: map<string, Sparse>, keys0: seq<string>)
    returns (rootAllDocs: Sparse, dirs: map<string, Sparse>, keys: seq<string>)
    requires j < |all|
    requires PlacedBefore(all, scope, j, rootAllDocs0, dirs0, keys0)
    ensures PlacedBefore(all, scope, j + 1, rootAllDocs, dirs, keys)
  {
    rootAllDocs, dirs, keys := rootAllDocs0 + [Some([])], dirs0, keys0;
    var documents := all[j];
    for k := 0 to |documents|
      invariant |rootAllDocs| == j + 1
      invariant forall n :: 0 <= n < j ==> rootAllDocs[n] == Some(Select(all[n], Root, scope))
      invariant rootAllDocs[j] == Some(Select(documents[..k], Root, scope))
      invariant keys == Dedup(Matched(Visited(all, j, k), scope))
      invariant forall c :: c in dirs <==> c in keys
      invariant DirsAgree(all, scope, j, k, dirs)
    {
      var doc := documents[k];
      SelectStep(documents, k, Root, scope);
      VisitedStep(all, scope, j, k);
      if StartsWith(doc.u, scope.baseUrl) {
        var uri := doc.u[|scope.baseUrl|..];
        var found := FindContext(uri, scope.contexts);
        if found.Some? && scope.contexts[found.value] != "" {
          var matchedPath := scope.contexts[found.value];
          assert ContextOf(doc.u, scope) == Some(matchedPath);
          DirsStepMatched(all, scope, j, k, dirs, matchedPath);
          DedupSnoc(Matched(Visited(all, j, k), scope), matchedPath);
          if matchedPath !in dirs {
            dirs := dirs[matchedPath := []];
            keys := keys + [matchedPath];
          }
          var dirAllDocs := dirs[matchedPath];
          var dirDocs := if SlotAt(dirAllDocs, j).Some? then SlotAt(dirAllDocs, j).value else [];
          dirs := dirs[matchedPath := SetSlot(dirAllDocs, j, dirDocs + [doc])];
          if !scope.useAll {
            continue;
          }
        } else {
          assert ContextOf(doc.u, scope).None?;
          DirsStepUnmatched(all, scope, j, k, dirs);
        }
      } else {
        DirsStepUnmatched(all, scope, j, k, dirs);
      }
      rootAllDocs := rootAllDocs[j := Some(rootAllDocs[j].value + [doc])];
    }
    assert documents[..|documents|] == documents;
    ListDone(all, scope, j, dirs);
  }

  /**
   * The outer loop at lines 85-113, one pass per document type; `docIndex` counts the lists.
   */
  method PlaceDocuments(all: seq<seq<Doc>>, scope: Scope)
    returns (rootAllDocs: Sparse, dirs: map<string, Sparse>, keys: seq<string>)
    ensures |rootAllDocs| == |all|
    ensures forall n :: 0 <= n < |all| ==> rootAllDocs[n] == Some(Select(all[n], Root, scope))
    ensures keys == ContextKeys(all, scope)
    ensures forall c :: c in dirs <==> c in keys
    ensures forall c :: c in dirs ==> |dirs[c]| <= |all|
    ensures forall c, n :: c in dirs && 0 <= n < |all| ==>
      SlotAt(dirs[c], n) == Slot(Select(all[n], Context(c), scope))
  {
    rootAllDocs, dirs, keys := [], map[], [];
    for docIndex := 0 to |all|
      invariant PlacedBefore(all, scope, docIndex, rootAllDocs, dirs, keys)
    {
      rootAllDocs, dirs, keys := PlaceList(all, scope, docIndex, rootAllDocs, dirs, keys);
    }
    assert all[..|all|] == all;
    assert Visited(all, |all|, 0) == Flatten(all);
    forall c, n | c in dirs && 0 <= n < |all|
      ensures SlotAt(dirs[c], n) == Slot(Select(all[n], Context(c), scope))
    {
      assert Seen(all, |all|, 0, n) == all[n];
    }
  }

  /**
   * The partitioning of lines 73-122: without contexts the scanned lists form the only
   * partition; otherwise documents are placed, the root key is inserted first unless the
   * search bar is hidden, and the context arrays are compacted (lines 114-119).
   */
  method Partition(all: seq<seq<Doc>>, options: Options, baseUrl: string) returns (entries: seq<Entry>)
    ensures entries == Partitions(all, options, baseUrl)
  {
    if options.searchContextByPaths.None? {
      return [Entry("", all)];
    }
    var scope := Scope(baseUrl, options.searchContextByPaths.value, options.useAllContextsWithNoSearchContext);
    var rootAllDocs, dirs, keys := PlaceDocuments(all, scope);
    var rootEntry := [];
    if !options.hideSearchBarWithNoSearchContext {
      CompactRoot(all, scope, rootAllDocs);
      rootEntry := [Entry("", Compact(rootAllDocs))];
    }
    var dirEntries := CompactContexts(all, scope, dirs, keys);
    entries := rootEntry + dirEntries;
  }

  /** The compaction pass over the context entries, in key order (lines 114-119). */
  method CompactContexts(all: seq<seq<Doc>>, scope: Scope, dirs: map<string, Sparse>, keys: seq<string>)
    returns (dirEntries: seq<Entry>)
    requires forall c :: c in keys ==> c in dirs && |dirs[c]| <= |all|
    requires forall c, n :: c in dirs && 0 <= n < |all| ==> SlotAt(dirs[c], n) == Slot(Select(all[n], Context(c), scope))
    ensures dirEntries == seq(|keys|, i requires 0 <= i < |keys| => Entry(keys[i], ContextDocs(all, scope, keys[i])))
  {
    dirEntries := [];
    for i := 0 to |keys|
      invariant |dirEntries| == i
      invariant forall n :: 0 <= n < i ==> dirEntries[n] == Entry(keys[n], ContextDocs(all, scope, keys[n]))
    {
      var v := dirs[keys[i]];
      CompactContext(all, scope, keys[i], v);
      dirEntries := dirEntries + [Entry(keys[i], Compact(v))];
    }
  }

  /** The root array has no holes: compacting it leaves the root lists. */
  lemma CompactRoot(all: seq<seq<Doc>>, scope: Scope, root: Sparse)
    requires |root| == |all|
    requires forall n :: 0 <= n < |all| ==> root[n] == Some(Select(all[n], Root, scope))
    ensures Compact(root) == RootDocs(all, scope)
  {
    CompactFull(root);
  }

  /** A context's sparse array compacts to the context's non-empty lists. */
  lemma CompactContext(all: seq<seq<Doc>>, scope: Scope, c: string, v: Sparse)
    requires |v| <= |all|
    requires forall n :: 0 <= n < |all| ==> SlotAt(v, n) == Slot(Select(all[n], Context(c), scope))
    ensures Compact(v) == ContextDocs(all, scope, c)
  {
    CompactPadded(v, |all|);
    assert seq(|all|, j requires 0 <= j < |all| => SlotAt(v, j))
        == seq(|all|, j requires 0 <= j < |all| => Slot(Select(all[j], Context(c), scope)));
  }

  /** The entry of context key `n`. */
  lemma PartitionsContextEntry(all: seq<seq<Doc>>, options: Options, baseUrl: string, n: nat)
    requires options.searchContextByPaths.Some?
    requires n < |ContextKeys(all, Scope(baseUrl, options.searchContextByPaths.value, options.useAllContextsWithNoSearchContext))|
    ensures
      var scope := Scope(baseUrl, options.searchContextByPaths.value, options.useAllContextsWithNoSearchContext);
      var keys := ContextKeys(all, scope);
      var offset := if options.hideSearchBarWithNoSearchContext then 0 else 1;
      var r := Partitions(all, options, baseUrl);
      offset + n < |r| && r[offset + n] == Entry(keys[n], ContextDocs(all, scope, keys[n]))
  {
    PartitionsAt(all, options, baseUrl);
  }

  /** The root entry, first when the search bar is not hidden. */
  lemma PartitionsRootEntry(all: seq<seq<Doc>>, options: Options, baseUrl: string)
    requires options.searchContextByPaths.Some? && !options.hideSearchBarWithNoSearchContext
    ensures
      var scope := Scope(baseUrl, options.searchContextByPaths.value, options.useAllContextsWithNoSearchContext);
      var r := Partitions(all, options, baseUrl);
      |r| > 0 && r[0] == Entry("", RootDocs(all, scope))
  {
    PartitionsAt(all, options, baseUrl);
  }

  /** Every entry past the root one is a context entry. */
  lemma PartitionsEntry(all: seq<seq<Doc>>, options: Options, baseUrl: string, i: nat)
    requires options.searchContextByPaths.Some?
    requires i < |Partitions(all, options, baseUrl)|
    requires !options.hideSearchBarWithNoSearchContext ==> i > 0
    ensures
      var scope := Scope(baseUrl, options.searchContextByPaths.value, options.useAllContextsWithNoSearchContext);
      var keys := ContextKeys(all, scope);
      var offset := if options.hideSearchBarWithNoSearchContext then 0 else 1;
      var r := Partitions(all, options, baseUrl);
      i - offset < |keys| && r[i] == Entry(keys[i - offset], ContextDocs(all, scope, keys[i - offset]))
  {
    PartitionsAt(all, options, baseUrl);
  }

  /** The entries of `Partitions`, one by one. */
  lemma PartitionsAt(all: seq<seq<Doc>>, options: Options, baseUrl: string)
    requires options.searchContextByPaths.Some?
    ensures
      var scope := Scope(baseUrl, options.searchContextByPaths.value, options.useAllContextsWithNoSearchContext);
      var keys := ContextKeys(all, scope);
      var offset := if options.hideSearchBarWithNoSearchContext then 0 else 1;
      var r := Partitions(all, options, baseUrl);
      && |r| == offset + |keys|
      && (offset == 1 ==> r[0] == Entry("", RootDocs(all, scope)))
      && forall n :: 0 <= n < |keys| ==> r[offset + n] == Entry(keys[n], ContextDocs(all, scope, keys[n]))
  {
  }
}
