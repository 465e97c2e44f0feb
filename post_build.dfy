/**
 * The post-build step: it clears the vector space once, ingests one record per content
 * document of every version, then partitions every version's documents and writes one
 * search index per partition. The outside world it talks to is a `World` that records each
 * call as an event; any call may fail, and a failure ends the step.
 */
module PostBuild {
  import opened Wrappers
  import opened Interfaces
  import opened VectorRecords
  import opened Partitioning
  import opened IndexFiles

  /** A call the post-build step makes to the outside world. */
  datatype Event =
    | ClearVectorSpace(spaceId: int, token: string)
    | Ingest(spaceId: int, token: string, record: VectorRecord)
    | WriteIndex(outDir: string, filename: string, docs: seq<seq<Doc>>)

  /**
   * The vector space and the file system as the post-build step sees them: the calls made so
   * far, and the positions in that sequence at which a call fails (throws).
   */
  class World {
    var trace: seq<Event>
    const failing: set<nat>

    constructor (failing: set<nat>)
      ensures trace == [] && this.failing == failing
    {
      trace := [];
      this.failing := failing;
    }

    /** Make one call: it is recorded, and it fails when its position is a failing one. */
    method Call(e: Event) returns (ok: bool)
      modifies this
      ensures trace == old(trace) + [e]
      ensures ok <==> |old(trace)| !in failing
    {
      ok := |trace| !in failing;
      trace := trace + [e];
    }
  }

  /** The calls of consecutive blocks, block after block. */
  function Concat(blocks: seq<seq<Event>>): seq<Event> {
    if |blocks| == 0 then [] else Concat(blocks[..|blocks| - 1]) + blocks[|blocks| - 1]
  }

  /** The ingest calls for one version: one per content document, in scan order. */
  function VersionIngests(spaceId: int, token: string, v: VersionData): (r: seq<Event>)
    ensures |r| == |v.scanned.contents|
  {
    seq(|v.scanned.contents|, k requires 0 <= k < |v.scanned.contents| =>
      Ingest(spaceId, token, RecordFor(v.scanned.titles, v.scanned.contents[k])))
  }

  /** The ingest blocks of all versions, in version order. */
  function IngestBlocks(spaceId: int, token: string, data: seq<VersionData>): seq<seq<Event>> {
    seq(|data|, v requires 0 <= v < |data| => VersionIngests(spaceId, token, data[v]))
  }

  /** The ingest calls for all versions, version after version. */
  function IngestEvents(spaceId: int, token: string, data: seq<VersionData>): seq<Event> {
    Concat(IngestBlocks(spaceId, token, data))
  }

  /** What the writing phase does for one version: the output directory and the partitions to write there. */
  datatype Plan = Plan(outDir: string, entries: seq<Entry>)

  /** The plan of a version: its documents partitioned by context. */
  function VersionPlan(options: Options, baseUrl: string, v: VersionData): Plan {
    Plan(v.outDir, Partitions(v.scanned.Lists(), options, baseUrl))
  }

  /** The plans of all versions, in version order. */
  function Plans(options: Options, baseUrl: string, data: seq<VersionData>): seq<Plan> {
    seq(|data|, k requires 0 <= k < |data| => VersionPlan(options, baseUrl, data[k]))
  }

  /** The index writes of one plan: one per partition, in the partitions' order. */
  function PlanWrites(template: string, p: Plan): (r: seq<Event>)
    ensures |r| == |p.entries|
  {
    seq(|p.entries|, i requires 0 <= i < |p.entries| =>
      WriteIndex(p.outDir, IndexFilename(template, p.entries[i].key), p.entries[i].docs))
  }

  /** The write blocks of all plans, in plan order. */
  function WriteBlocks(template: string, plans: seq<Plan>): seq<seq<Event>> {
    seq(|plans|, v requires 0 <= v < |plans| => PlanWrites(template, plans[v]))
  }

  /** The index writes for all plans, plan after plan. */
  function WriteEvents(template: string, plans: seq<Plan>): seq<Event> {
    Concat(WriteBlocks(template, plans))
  }

  /** Every call the step makes when none fails. */
  function Expected(options: Options, template: string, baseUrl: string, token: string, data: seq<VersionData>): seq<Event> {
    [ClearVectorSpace(options.vectorSpaceId, token)]
    + IngestEvents(options.vectorSpaceId, token, data)
    + WriteEvents(template, Plans(options, baseUrl, data))
  }

  /** None of the `n` calls from position `start` on fails. */
  predicate NoFailure(start: nat, n: nat, failing: set<nat>) {
    forall m :: start <= m < start + n ==> m !in failing
  }

  /**
   * The calls actually made when the planned calls are `events` and the first of them is at
   * position `start`: every call up to and including the first that fails.
   */
  function Run(start: nat, events: seq<Event>, failing: set<nat>): (r: seq<Event>)
    ensures r <= events
    ensures |events| > 0 ==> |r| > 0
    ensures |r| < |events| ==> start + |r| - 1 in failing
    decreases |events|
  {
    if |events| == 0 then []
    else if start in failing then [events[0]]
    else [events[0]] + Run(start + 1, events[1..], failing)
  }

  /** When no call fails, every planned call is made. */
  lemma {:induction false} RunAll(start: nat, events: seq<Event>, failing: set<nat>)
    requires NoFailure(start, |events|, failing)
    ensures Run(start, events, failing) == events
    decreases |events|
  {
    if |events| > 0 {
      assert start !in failing;
      RunAll(start + 1, events[1..], failing);
    }
  }

  /** When call `n` is the first to fail, the calls made are exactly the first `n + 1`. */
  lemma {:induction false} RunFirstFailure(start: nat, events: seq<Event>, failing: set<nat>, n: nat)
    requires n < |events| && NoFailure(start, n, failing) && start + n in failing
    ensures Run(start, events, failing) == events[..n + 1]
    decreases n
  {
    if n > 0 {
      assert start !in failing;
      RunFirstFailure(start + 1, events[1..], failing, n - 1);
      assert events[..n + 1] == [events[0]] + events[1..][..n];
    }
  }

  /** A failing call `n` bounds the calls made: nothing after it happens. */
  lemma {:induction false} RunStops(start: nat, events: seq<Event>, failing: set<nat>, n: nat)
    requires n < |events| && start + n in failing
    ensures |Run(start, events, failing)| <= n + 1
    decreases n
  {
    if n > 0 && start !in failing {
      RunStops(start + 1, events[1..], failing, n - 1);
    }
  }

  /** An element of a middle part sits after the part before it in any sequence the two start. */
  lemma PrefixIndex(whole: seq<Event>, before: seq<Event>, mid: seq<Event>, i: nat)
    requires before + mid <= whole && i < |mid|
    ensures |before| + i < |whole| && whole[|before| + i] == mid[i]
  {
    assert (before + mid)[|before| + i] == mid[i];
  }

  /** Adding one block appends its calls. */
  lemma ConcatStep(blocks: seq<seq<Event>>, v: nat)
    requires v < |blocks|
    ensures Concat(blocks[..v + 1]) == Concat(blocks[..v]) + blocks[v]
  {
    assert blocks[..v + 1][..v] == blocks[..v];
  }

  /** The calls of the first blocks come first. */
  lemma {:induction false} ConcatPrefix(blocks: seq<seq<Event>>, v: nat)
    requires v <= |blocks|
    ensures Concat(blocks[..v]) <= Concat(blocks)
  {
    if v < |blocks| {
      var init := blocks[..|blocks| - 1];
      ConcatPrefix(init, v);
      assert init[..v] == blocks[..v];
    } else {
      assert blocks[..v] == blocks;
    }
  }

  /** Call `k` of block `v` sits right after the calls of the blocks before it. */
  lemma ConcatAt(blocks: seq<seq<Event>>, v: nat, k: nat)
    requires v < |blocks| && k < |blocks[v]|
    ensures |Concat(blocks[..v])| + k < |Concat(blocks)|
    ensures Concat(blocks)[|Concat(blocks[..v])| + k] == blocks[v][k]
  {
    ConcatStep(blocks, v);
    ConcatPrefix(blocks, v + 1);
    PrefixIndex(Concat(blocks), Concat(blocks[..v]), blocks[v], k);
  }

  /** Every call of the concatenation is a call of one of the blocks. */
  lemma {:induction false} ConcatIndex(blocks: seq<seq<Event>>, m: nat) returns (v: nat, k: nat)
    requires m < |Concat(blocks)|
    ensures v < |blocks| && k < |blocks[v]| && Concat(blocks)[m] == blocks[v][k]
  {
    var n := |blocks| - 1;
    var init := Concat(blocks[..n]);
    if m < |init| {
      v, k := ConcatIndex(blocks[..n], m);
      assert blocks[..n][v] == blocks[v];
    } else {
      v, k := n, m - |init|;
    }
  }

  /** The ingest blocks of the first versions are the first ingest blocks. */
  lemma IngestBlocksPrefix(spaceId: int, token: string, data: seq<VersionData>, v: nat)
    requires v <= |data|
    ensures IngestBlocks(spaceId, token, data[..v]) == IngestBlocks(spaceId, token, data)[..v]
  {
  }

  /** Adding one version appends its ingest calls. */
  lemma IngestStep(spaceId: int, token: string, data: seq<VersionData>, v: nat)
    requires v < |data|
    ensures IngestEvents(spaceId, token, data[..v + 1]) ==
      IngestEvents(spaceId, token, data[..v]) + VersionIngests(spaceId, token, data[v])
  {
    IngestBlocksPrefix(spaceId, token, data, v);
    IngestBlocksPrefix(spaceId, token, data, v + 1);
    ConcatStep(IngestBlocks(spaceId, token, data), v);
  }

  /**
   * The ingest call for content document `k` of version `v` comes after those of all earlier
   * versions and earlier documents, and carries that document's record.
   */
  lemma IngestAt(spaceId: int, token: string, data: seq<VersionData>, v: nat, k: nat)
    requires v < |data| && k < |data[v].scanned.contents|
    ensures |IngestEvents(spaceId, token, data[..v])| + k < |IngestEvents(spaceId, token, data)|
    ensures IngestEvents(spaceId, token, data)[|IngestEvents(spaceId, token, data[..v])| + k] ==
      Ingest(spaceId, token, RecordFor(data[v].scanned.titles, data[v].scanned.contents[k]))
  {
    IngestBlocksPrefix(spaceId, token, data, v);
    ConcatAt(IngestBlocks(spaceId, token, data), v, k);
  }

  /** The write blocks of the first plans are the first write blocks. */
  lemma WriteBlocksPrefix(template: string, plans: seq<Plan>, v: nat)
    requires v <= |plans|
    ensures WriteBlocks(template, plans[..v]) == WriteBlocks(template, plans)[..v]
  {
  }

  /** Adding one plan appends its index writes. */
  lemma WriteStep(template: string, plans: seq<Plan>, v: nat)
    requires v < |plans|
    ensures WriteEvents(template, plans[..v + 1]) == WriteEvents(template, plans[..v]) + PlanWrites(template, plans[v])
  {
    WriteBlocksPrefix(template, plans, v);
    WriteBlocksPrefix(template, plans, v + 1);
    ConcatStep(WriteBlocks(template, plans), v);
  }

  /**
   * The writes for plan `v` come after those of all earlier plans, in the order of that plan's
   * partitions.
   */
  lemma WriteAt(template: string, plans: seq<Plan>, v: nat, i: nat)
    requires v < |plans| && i < |plans[v].entries|
    ensures |WriteEvents(template, plans[..v])| + i < |WriteEvents(template, plans)|
    ensures WriteEvents(template, plans)[|WriteEvents(template, plans[..v])| + i] ==
      WriteIndex(plans[v].outDir, IndexFilename(template, plans[v].entries[i].key), plans[v].entries[i].docs)
  {
    WriteBlocksPrefix(template, plans, v);
    ConcatAt(WriteBlocks(template, plans), v, i);
  }

  /** Every planned call of the ingestion phase is an ingest. */
  lemma IngestKinds(spaceId: int, token: string, data: seq<VersionData>)
    ensures forall m :: 0 <= m < |IngestEvents(spaceId, token, data)| ==> IngestEvents(spaceId, token, data)[m].Ingest?
  {
    forall m | 0 <= m < |IngestEvents(spaceId, token, data)| ensures IngestEvents(spaceId, token, data)[m].Ingest? {
      var v, k := ConcatIndex(IngestBlocks(spaceId, token, data), m);
    }
  }

  /** Every planned call of the writing phase is an index write. */
  lemma WriteKinds(template: string, plans: seq<Plan>)
    ensures forall m :: 0 <= m < |WriteEvents(template, plans)| ==> WriteEvents(template, plans)[m].WriteIndex?
  {
    forall m | 0 <= m < |WriteEvents(template, plans)| ensures WriteEvents(template, plans)[m].WriteIndex? {
      var v, k := ConcatIndex(WriteBlocks(template, plans), m);
    }
  }

  /** The number of content documents over all versions. */
  function ContentCount(data: seq<VersionData>): nat {
    if |data| == 0 then 0 else ContentCount(data[..|data| - 1]) + |data[|data| - 1].scanned.contents|
  }

  /** One ingest call per content document of every version. */
  lemma {:induction false} IngestCount(spaceId: int, token: string, data: seq<VersionData>)
    ensures |IngestEvents(spaceId, token, data)| == ContentCount(data)
  {
    if |data| > 0 {
      var n := |data| - 1;
      IngestCount(spaceId, token, data[..n]);
      IngestStep(spaceId, token, data, n);
      assert data[..n + 1] == data;
    }
  }

  /** The layout of a clear followed by ingests followed by writes. */
  lemma ThreePhases(clear: Event, ingests: seq<Event>, writes: seq<Event>)
    requires forall m :: 0 <= m < |ingests| ==> ingests[m].Ingest?
    requires forall m :: 0 <= m < |writes| ==> writes[m].WriteIndex?
    ensures
      var e := [clear] + ingests + writes;
      && (forall n :: 1 <= n <= |ingests| ==> e[n].Ingest?)
      && (forall n :: |ingests| < n < |e| ==> e[n].WriteIndex?)
  {
    var e := [clear] + ingests + writes;
    forall n | 1 <= n <= |ingests| ensures e[n].Ingest? {
      assert e[n] == ingests[n - 1];
    }
    forall n | |ingests| < n < |e| ensures e[n].WriteIndex? {
      assert e[n] == writes[n - 1 - |ingests|];
    }
  }

  /** The planned calls are the clear, one ingest per content document, then the index writes. */
  lemma ExpectedParts(options: Options, template: string, baseUrl: string, token: string, data: seq<VersionData>)
    ensures
      var e := Expected(options, template, baseUrl, token, data);
      && |e| == 1 + ContentCount(data) + |WriteEvents(template, Plans(options, baseUrl, data))|
      && e[0] == ClearVectorSpace(options.vectorSpaceId, token)
      && (forall n :: 1 <= n <= ContentCount(data) ==> e[n].Ingest?)
      && (forall n :: ContentCount(data) < n < |e| ==> e[n].WriteIndex?)
  {
    IngestKinds(options.vectorSpaceId, token, data);
    WriteKinds(template, Plans(options, baseUrl, data));
    IngestCount(options.vectorSpaceId, token, data);
    ThreePhases(ClearVectorSpace(options.vectorSpaceId, token), IngestEvents(options.vectorSpaceId, token, data),
      WriteEvents(template, Plans(options, baseUrl, data)));
  }

  /**
   * The vector space is cleared exactly once, before anything else, and every index write
   * comes after every ingest.
   */
  lemma ExpectedOrder(options: Options, template: string, baseUrl: string, token: string, data: seq<VersionData>)
    ensures
      var e := Expected(options, template, baseUrl, token, data);
      && |e| > 0 && e[0].ClearVectorSpace?
      && (forall n :: 1 <= n < |e| ==> !e[n].ClearVectorSpace?)
      && (forall m, n :: 0 <= m < |e| && 0 <= n < |e| && e[m].Ingest? && e[n].WriteIndex? ==> m < n)
  {
    ExpectedParts(options, template, baseUrl, token, data);
  }

  /** A failing clear ends the step at once: no ingest and no index write happens. */
  lemma ClearFailureStops(options: Options, template: string, baseUrl: string, token: string, data: seq<VersionData>,
                          start: nat, failing: set<nat>)
    requires start in failing
    ensures Run(start, Expected(options, template, baseUrl, token, data), failing) == [ClearVectorSpace(options.vectorSpaceId, token)]
  {
    RunFirstFailure(start, Expected(options, template, baseUrl, token, data), failing, 0);
  }

  /** A failure during clearing or ingestion means no index file is written. */
  lemma IngestFailureNoWrites(options: Options, template: string, baseUrl: string, token: string, data: seq<VersionData>,
                              start: nat, failing: set<nat>, n: nat)
    requires n <= ContentCount(data) && start + n in failing
    ensures
      var r := Run(start, Expected(options, template, baseUrl, token, data), failing);
      forall m :: 0 <= m < |r| ==> !r[m].WriteIndex?
  {
    var e := Expected(options, template, baseUrl, token, data);
    ExpectedParts(options, template, baseUrl, token, data);
    RunStops(start, e, failing, n);
    var r := Run(start, e, failing);
    assert forall m :: 0 <= m < |r| ==> r[m] == e[m];
  }

  /** Without contexts a version gets a single index, under the root name, holding its scanned lists. */
  lemma NoContextsSingleIndex(options: Options, template: string, baseUrl: string, v: VersionData)
    requires options.searchContextByPaths.None?
    ensures PlanWrites(template, VersionPlan(options, baseUrl, v)) ==
      [WriteIndex(v.outDir, IndexFilename(template, ""), [v.scanned.titles, v.scanned.headings, v.scanned.contents])]
  {
    PartitionKeys(v.scanned.Lists(), options, baseUrl);
  }

  /** The calls made so far are the first `n` planned ones, and none of them failed. */
  ghost predicate Progress(world: World, start: seq<Event>, all: seq<Event>, n: nat)
    reads world
  {
    n <= |all| && world.trace == start + all[..n] && NoFailure(|start|, n, world.failing)
  }

  /** What a phase leaves behind when a call fails: the calls made are the run up to that call. */
  ghost predicate Aborted(world: World, start: seq<Event>, all: seq<Event>)
    reads world
  {
    world.trace == start + Run(|start|, all, world.failing) && !NoFailure(|start|, |all|, world.failing)
  }

  /** Make planned call `n`, which is `e`, after the first `n` planned calls succeeded. */
  method Step(world: World, ghost start: seq<Event>, ghost all: seq<Event>, ghost n: nat, e: Event) returns (ok: bool)
    requires Progress(world, start, all, n) && n < |all| && all[n] == e
    modifies world
    ensures ok ==> Progress(world, start, all, n + 1)
    ensures !ok ==> Aborted(world, start, all)
  {
    ok := world.Call(e);
    assert all[..n + 1] == all[..n] + [e];
    if !ok {
      RunFirstFailure(|start|, all, world.failing, n);
    }
  }

  /** The inner ingestion loop for one version: one ingest call per content document, in scan order. */
  method IngestVersion(world: World, spaceId: int, token: string, titles: seq<Doc>, contents: seq<Doc>,
                       ghost start: seq<Event>, ghost all: seq<Event>, ghost base: nat) returns (ok: bool)
    requires Progress(world, start, all, base) && base + |contents| <= |all|
    requires forall k :: 0 <= k < |contents| ==> all[base + k] == Ingest(spaceId, token, RecordFor(titles, contents[k]))
    modifies world
    ensures ok ==> Progress(world, start, all, base + |contents|)
    ensures !ok ==> Aborted(world, start, all)
  {
    for k := 0 to |contents|
      invariant Progress(world, start, all, base + k)
    {
      var record := RecordFor(titles, contents[k]);
      ok := Step(world, start, all, base + k, Ingest(spaceId, token, record));
      if !ok {
        return;
      }
    }
    ok := true;
  }

  /** A prefix of `y` put behind `pre` is a prefix of whatever `pre + y` is a prefix of. */
  lemma PrefixBehind(pre: seq<Event>, x: seq<Event>, y: seq<Event>, all: seq<Event>)
    requires x <= y && pre + y <= all
    ensures pre + x <= all
  {
    assert pre + x == (pre + y)[..|pre| + |x|];
  }

  /** Block `v` of a concatenation behind `pre` sits right after `pre` and the blocks before it. */
  lemma BlockPlaced(all: seq<Event>, pre: seq<Event>, blocks: seq<seq<Event>>, v: nat)
    requires v < |blocks| && pre + Concat(blocks) <= all
    ensures |pre| + |Concat(blocks[..v])| + |blocks[v]| <= |all|
    ensures forall k :: 0 <= k < |blocks[v]| ==> all[|pre| + |Concat(blocks[..v])| + k] == blocks[v][k]
  {
    var before := pre + Concat(blocks[..v]);
    ConcatStep(blocks, v);
    ConcatPrefix(blocks, v + 1);
    PrefixBehind(pre, Concat(blocks[..v + 1]), Concat(blocks), all);
    assert before + blocks[v] == pre + Concat(blocks[..v + 1]);
    forall k | 0 <= k < |blocks[v]| ensures all[|pre| + |Concat(blocks[..v])| + k] == blocks[v][k] {
      PrefixIndex(all, before, blocks[v], k);
    }
  }

  /** Where the ingest calls of version `v` sit among the planned calls. */
  lemma IngestsPlaced(spaceId: int, token: string, data: seq<VersionData>, v: nat, all: seq<Event>)
    requires v < |data|
    requires [ClearVectorSpace(spaceId, token)] + IngestEvents(spaceId, token, data) <= all
    ensures 1 + |IngestEvents(spaceId, token, data[..v])| + |data[v].scanned.contents| <= |all|
    ensures forall k :: 0 <= k < |data[v].scanned.contents| ==>
      all[1 + |IngestEvents(spaceId, token, data[..v])| + k] ==
        Ingest(spaceId, token, RecordFor(data[v].scanned.titles, data[v].scanned.contents[k]))
  {
    var blocks := IngestBlocks(spaceId, token, data);
    var base := 1 + |IngestEvents(spaceId, token, data[..v])|;
    IngestBlocksPrefix(spaceId, token, data, v);
    BlockPlaced(all, [ClearVectorSpace(spaceId, token)], blocks, v);
    assert blocks[v] == VersionIngests(spaceId, token, data[v]);
    forall k | 0 <= k < |data[v].scanned.contents|
      ensures all[base + k] == Ingest(spaceId, token, RecordFor(data[v].scanned.titles, data[v].scanned.contents[k]))
    {
      assert all[base + k] == blocks[v][k];
    }
  }

  /** The ingestion loop: one ingest call per content document of every version. */
  method IngestVersions(world: World, options: Options, token: string, data: seq<VersionData>,
                        ghost start: seq<Event>, ghost all: seq<Event>) returns (ok: bool)
    requires [ClearVectorSpace(options.vectorSpaceId, token)] + IngestEvents(options.vectorSpaceId, token, data) <= all
    requires Progress(world, start, all, 1)
    modifies world
    ensures ok ==> Progress(world, start, all, 1 + |IngestEvents(options.vectorSpaceId, token, data)|)
    ensures !ok ==> Aborted(world, start, all)
  {
    var spaceId := options.vectorSpaceId;
    for v := 0 to |data|
      invariant Progress(world, start, all, 1 + |IngestEvents(spaceId, token, data[..v])|)
    {
      IngestsPlaced(spaceId, token, data, v, all);
      ok := IngestVersion(world, spaceId, token, data[v].scanned.titles, data[v].scanned.contents,
        start, all, 1 + |IngestEvents(spaceId, token, data[..v])|);
      if !ok {
        return;
      }
      IngestStep(spaceId, token, data, v);
    }
    assert data[..|data|] == data;
    ok := true;
  }

  /** The inner writing loop for one version: one index write per partition, in the partitions' order. */
  method WriteVersion(world: World, outDir: string, template: string, entries: seq<Entry>,
                      ghost start: seq<Event>, ghost all: seq<Event>, ghost base: nat) returns (ok: bool)
    requires Progress(world, start, all, base) && base + |entries| <= |all|
    requires forall i :: 0 <= i < |entries| ==> all[base + i] == PlanWrites(template, Plan(outDir, entries))[i]
    modifies world
    ensures ok ==> Progress(world, start, all, base + |entries|)
    ensures !ok ==> Aborted(world, start, all)
  {
    for i := 0 to |entries|
      invariant Progress(world, start, all, base + i)
    {
      var filename := IndexFilename(template, entries[i].key);
      assert PlanWrites(template, Plan(outDir, entries))[i] == WriteIndex(outDir, filename, entries[i].docs);
      ok := Step(world, start, all, base + i, WriteIndex(outDir, filename, entries[i].docs));
      if !ok {
        return;
      }
    }
    ok := true;
  }

  /** Where the index writes of plan `v` sit among the planned calls. */
  lemma WritesPlaced(template: string, plans: seq<Plan>, v: nat, all: seq<Event>, pre: seq<Event>)
    requires v < |plans| && pre + WriteEvents(template, plans) <= all
    ensures |pre| + |WriteEvents(template, plans[..v])| + |plans[v].entries| <= |all|
    ensures forall i :: 0 <= i < |plans[v].entries| ==>
      all[|pre| + |WriteEvents(template, plans[..v])| + i] == PlanWrites(template, plans[v])[i]
  {
    WriteBlocksPrefix(template, plans, v);
    BlockPlaced(all, pre, WriteBlocks(template, plans), v);
  }

  /** The index-writing loop: per version, partition its documents and write one index per partition. */
  method WriteVersions(world: World, options: Options, template: string, baseUrl: string, data: seq<VersionData>,
                       ghost start: seq<Event>, ghost all: seq<Event>, ghost pre: seq<Event>) returns (ok: bool)
    requires pre + WriteEvents(template, Plans(options, baseUrl, data)) == all
    requires Progress(world, start, all, |pre|)
    modifies world
    ensures ok ==> Progress(world, start, all, |all|)
    ensures !ok ==> Aborted(world, start, all)
  {
    ghost var plans := Plans(options, baseUrl, data);
    for v := 0 to |data|
      invariant Progress(world, start, all, |pre| + |WriteEvents(template, plans[..v])|)
    {
      var entries := Partition(data[v].scanned.Lists(), options, baseUrl);
      assert plans[v] == Plan(data[v].outDir, entries);
      WritesPlaced(template, plans, v, all, pre);
      ok := WriteVersion(world, data[v].outDir, template, entries, start, all, |pre| + |WriteEvents(template, plans[..v])|);
      if !ok {
        return;
      }
      WriteStep(template, plans, v);
    }
    assert plans[..|data|] == plans;
    ok := true;
  }

  /**
   * The post-build step. The calls it makes are the planned calls up to and including the
   * first that fails, and it completes exactly when none fails.
   */
  method PostBuild(world: World, options: Options, searchIndexFilename: string, baseUrl: string,
                   token: string, data: seq<VersionData>) returns (ok: bool)
    modifies world
    ensures world.trace == old(world.trace) + Run(|old(world.trace)|, Expected(options, searchIndexFilename, baseUrl, token, data), world.failing)
    ensures ok <==> NoFailure(|old(world.trace)|, |Expected(options, searchIndexFilename, baseUrl, token, data)|, world.failing)
  {
    ghost var start := world.trace;
    ghost var all := Expected(options, searchIndexFilename, baseUrl, token, data);
    ghost var ingests := IngestEvents(options.vectorSpaceId, token, data);
    assert Progress(world, start, all, 0);
    ok := Step(world, start, all, 0, ClearVectorSpace(options.vectorSpaceId, token));
    if !ok {
      return;
    }
    ok := IngestVersions(world, options, token, data, start, all);
    if !ok {
      return;
    }
    ghost var pre := [ClearVectorSpace(options.vectorSpaceId, token)] + ingests;
    ok := WriteVersions(world, options, searchIndexFilename, baseUrl, data, start, all, pre);
    if ok {
      assert all[..|all|] == all;
      RunAll(|start|, all, world.failing);
    }
  }
}
