/**
  What a split keeps and how good it is: every record once, in order, under its own headers;
  requests whose real encoding fits the limit; and no fewer requests possible.
*/
module OtlpSplitLaws {
  import opened OtlpSplit

  // ------------------------------------------------------------ conservation

  /** A record with the headers it is sent under. */
  datatype Labelled = Labelled(resource: Header, scope: Header, record: Record)

  function RecordsContents(resource: Header, scope: Header, records: seq<Record>): seq<Labelled> {
    if records == [] then []
    else
      RecordsContents(resource, scope, records[..|records| - 1])
      + [Labelled(resource, scope, records[|records| - 1])]
  }

  function ScopesContents(resource: Header, scopes: seq<ScopeLogs>): seq<Labelled> {
    if scopes == [] then []
    else
      var last := scopes[|scopes| - 1];
      ScopesContents(resource, scopes[..|scopes| - 1]) + RecordsContents(resource, last.scope, last.records)
  }

  /** The records of a request, in order, each with its headers. */
  function Contents(r: Request): seq<Labelled> {
    if r == [] then []
    else Contents(r[..|r| - 1]) + ScopesContents(r[|r| - 1].resource, r[|r| - 1].scopes)
  }

  function AllContents(rs: seq<Request>): seq<Labelled> {
    if rs == [] then [] else AllContents(rs[..|rs| - 1]) + Contents(rs[|rs| - 1])
  }

  function Labels(es: seq<Entry>): (r: seq<Labelled>)
    ensures |r| == |es|
  {
    seq(|es|, i requires 0 <= i < |es| => Labelled(es[i].resource, es[i].scope, es[i].record))
  }

  /** The entries of a request's last resource and scope carry its headers. */
  ghost predicate LastHeaders(r: Request, e: Entry) {
    && r != [] && r[|r| - 1].scopes != []
    && r[|r| - 1].resource == e.resource
    && r[|r| - 1].scopes[|r[|r| - 1].scopes| - 1].scope == e.scope
  }

  lemma {:induction false} OneRecord(e: Entry)
    ensures RecordsContents(e.resource, e.scope, [e.record]) == [Labelled(e.resource, e.scope, e.record)]
  {
    assert [e.record][..0] == [];
  }

  lemma {:induction false} ContentsLast(r: Request, rl: ResourceLogs)
    ensures Contents(r + [rl]) == Contents(r) + ScopesContents(rl.resource, rl.scopes)
  {
    assert (r + [rl])[..|r|] == r;
  }

  lemma {:induction false} PlaceInResource(scopes: seq<ScopeLogs>, e: Entry, newScope: bool)
    requires !newScope ==> scopes != [] && scopes[|scopes| - 1].scope == e.scope
    ensures var m := |scopes| - 1;
      var after := if newScope then scopes + [ScopeLogs(e.scope, [e.record])]
                   else scopes[m := ScopeLogs(e.scope, scopes[m].records + [e.record])];
      ScopesContents(e.resource, after)
        == ScopesContents(e.resource, scopes) + [Labelled(e.resource, e.scope, e.record)]
  {
    OneRecord(e);
    if newScope {
      ScopesContentsLast(e.resource, scopes, ScopeLogs(e.scope, [e.record]));
    } else {
      var m := |scopes| - 1;
      var records := scopes[m].records;
      assert (records + [e.record])[..|records|] == records;
      ScopesContentsLast(e.resource, scopes[..m], ScopeLogs(e.scope, records + [e.record]));
      assert scopes[m := ScopeLogs(e.scope, records + [e.record])]
        == scopes[..m] + [ScopeLogs(e.scope, records + [e.record])];
    }
  }

  lemma {:induction false} PlaceContents(r: Request, e: Entry, newResource: bool, newScope: bool)
    requires newResource ==> newScope
    requires !newResource ==> r != [] && r[|r| - 1].scopes != [] && r[|r| - 1].resource == e.resource
    requires !newScope ==> LastHeaders(r, e)
    ensures Contents(Place(r, e, newResource, newScope)) == Contents(r) + [Labelled(e.resource, e.scope, e.record)]
    ensures LastHeaders(Place(r, e, newResource, newScope), e)
  {
    if newResource {
      OneRecord(e);
      ScopesContentsLast(e.resource, [], ScopeLogs(e.scope, [e.record]));
      ContentsLast(r, ResourceLogs(e.resource, [ScopeLogs(e.scope, [e.record])]));
    } else {
      var n := |r| - 1;
      PlaceInResource(r[n].scopes, e, newScope);
      var after := Place(r, e, newResource, newScope);
      assert after == r[..n] + [after[n]] && r == r[..n] + [r[n]];
      ContentsLast(r[..n], after[n]);
      ContentsLast(r[..n], r[n]);
    }
  }

  lemma {:induction false} ScopesContentsLast(resource: Header, scopes: seq<ScopeLogs>, sl: ScopeLogs)
    ensures ScopesContents(resource, scopes + [sl])
         == ScopesContents(resource, scopes) + RecordsContents(resource, sl.scope, sl.records)
  {
    assert (scopes + [sl])[..|scopes|] == scopes;
  }

  /** An entry that opens nothing new goes under the headers of the one before it. */
  lemma {:induction false} Continues(input: seq<ResourceLogs>, es: seq<Entry>, r: Request)
    requires Coherent(input, es) && |es| >= 2 && LastHeaders(r, es[|es| - 2])
    ensures !OpensResource(es) ==> r[|r| - 1].resource == es[|es| - 1].resource
    ensures !OpensScope(es) ==> LastHeaders(r, es[|es| - 1])
  {
    assert es[|es| - 1] in es && es[|es| - 2] in es;
  }

  lemma {:induction false} LabelsPush(es: seq<Entry>, e: Entry)
    ensures Labels(es + [e]) == Labels(es) + [Labelled(e.resource, e.scope, e.record)]
  {
  }

  lemma {:induction false} CoherentPrefix(input: seq<ResourceLogs>, es: seq<Entry>, n: nat)
    requires Coherent(input, es) && n <= |es|
    ensures Coherent(input, es[..n])
  {
    forall e | e in es[..n] ensures e in es {}
  }

  /** One more entry is one more record under its headers. */
  lemma {:induction false} BuildOneMore(es: seq<Entry>)
    requires es != []
    requires !OpensResource(es) ==> Build(es[..|es| - 1])[|Build(es[..|es| - 1])| - 1].resource == es[|es| - 1].resource
    requires !OpensScope(es) ==> LastHeaders(Build(es[..|es| - 1]), es[|es| - 1])
    ensures var e := es[|es| - 1];
      Contents(Build(es)) == Contents(Build(es[..|es| - 1])) + [Labelled(e.resource, e.scope, e.record)]
        && LastHeaders(Build(es), e)
  {
    PlaceContents(Build(es[..|es| - 1]), es[|es| - 1], OpensResource(es), OpensScope(es));
  }

  lemma {:induction false} BuildContentsNext(input: seq<ResourceLogs>, head: seq<Entry>, e: Entry)
    requires Coherent(input, head + [e])
    requires head != [] ==> LastHeaders(Build(head), head[|head| - 1])
    ensures Contents(Build(head + [e])) == Contents(Build(head)) + [Labelled(e.resource, e.scope, e.record)]
    ensures LastHeaders(Build(head + [e]), e)
  {
    var es := head + [e];
    assert es[..|es| - 1] == head;
    if head != [] { Continues(input, es, Build(head)); }
    BuildOneMore(es);
  }

  lemma {:induction false} BuildContents(input: seq<ResourceLogs>, es: seq<Entry>)
    requires Coherent(input, es)
    ensures Contents(Build(es)) == Labels(es)
    ensures es != [] ==> LastHeaders(Build(es), es[|es| - 1])
  {
    if es != [] {
      var head, e := es[..|es| - 1], es[|es| - 1];
      CoherentPrefix(input, es, |es| - 1);
      BuildContents(input, head);
      assert es == head + [e];
      BuildContentsNext(input, head, e);
      LabelsPush(head, e);
    }
  }

  function Concat(runs: seq<seq<Entry>>): seq<Entry> {
    if runs == [] then [] else Concat(runs[..|runs| - 1]) + runs[|runs| - 1]
  }

  lemma {:induction false} ConcatLast(runs: seq<seq<Entry>>, run: seq<Entry>)
    ensures Concat(runs + [run]) == Concat(runs) + run
  {
    assert (runs + [run])[..|runs|] == runs;
  }

  lemma {:induction false} FillKeeps(p: Packing, e: Entry, limit: nat)
    ensures var q := Fill(p, e, limit);
      Concat(q.closed) + q.current == Concat(p.closed) + p.current + [e] && q.current != []
  {
    ConcatLast(p.closed, p.current);
    assert Concat(p.closed) + p.current + [e] == Concat(p.closed) + (p.current + [e]);
  }

  /** The packing holds the entries, in order, with the last of them in the run being filled. */
  ghost predicate Keeps(p: Packing, es: seq<Entry>) {
    Concat(p.closed) + p.current == es && (es != [] ==> p.current != [])
  }

  lemma {:induction false} KeepsNext(p: Packing, es: seq<Entry>, e: Entry, limit: nat)
    requires Keeps(p, es)
    ensures Keeps(Fill(p, e, limit), es + [e])
  {
    FillKeeps(p, e, limit);
  }

  lemma {:induction false} PackKeeps(es: seq<Entry>, limit: nat)
    ensures Keeps(Pack(es, limit), es)
  {
    if es == [] {
      assert Keeps(Packing([], []), []);
    } else {
      var head, e := es[..|es| - 1], es[|es| - 1];
      var p, q := Pack(head, limit), Pack(es, limit);
      assert head + [e] == es && q == Fill(p, e, limit);
      PackKeeps(head, limit);
      KeepsNext(p, head, e, limit);
    }
  }

  lemma {:induction false} PackNonEmpty(es: seq<Entry>, limit: nat)
    ensures forall run | run in Pack(es, limit).closed :: run != []
  {
    if es != [] {
      PackNonEmpty(es[..|es| - 1], limit);
    }
  }

  /** The runs of the packing, put together, are the entries. */
  lemma {:induction false} PackConserves(es: seq<Entry>, limit: nat)
    ensures var p := Pack(es, limit);
      Concat(p.Runs()) == es && (forall run | run in p.Runs() :: run != [])
  {
    PackKeeps(es, limit);
    PackNonEmpty(es, limit);
    var p := Pack(es, limit);
    ConcatLast(p.closed, p.current);
  }

  lemma {:induction false} BuildAllContents(input: seq<ResourceLogs>, runs: seq<seq<Entry>>)
    requires Coherent(input, Concat(runs))
    ensures AllContents(BuildAll(runs)) == Labels(Concat(runs))
  {
    if runs != [] {
      var n := |runs| - 1;
      CoherentParts(input, Concat(runs[..n]), runs[n]);
      BuildAllContents(input, runs[..n]);
      BuildContents(input, runs[n]);
      assert BuildAll(runs)[..n] == BuildAll(runs[..n]);
      LabelsAppend(Concat(runs[..n]), runs[n]);
    }
  }

  lemma {:induction false} CoherentParts(input: seq<ResourceLogs>, a: seq<Entry>, b: seq<Entry>)
    requires Coherent(input, a + b)
    ensures Coherent(input, a) && Coherent(input, b)
  {
    forall e | e in a || e in b ensures e in a + b {}
  }

  /** The entries of the input are its contents. */
  lemma {:induction false} EntriesContents(input: seq<ResourceLogs>, n: nat)
    requires n <= |input|
    ensures Labels(Entries(input, n)) == Contents(input[..n])
  {
    if n > 0 {
      EntriesContents(input, n - 1);
      var rl := input[n - 1];
      assert input[..n][..n - 1] == input[..n - 1];
      ResourceEntriesContents(n - 1, rl, |rl.scopes|);
      assert rl.scopes[..|rl.scopes|] == rl.scopes;
      LabelsAppend(Entries(input, n - 1), ResourceEntries(n - 1, rl, |rl.scopes|));
    }
  }

  lemma {:induction false} ResourceEntriesContents(ri: nat, rl: ResourceLogs, n: nat)
    requires n <= |rl.scopes|
    ensures Labels(ResourceEntries(ri, rl, n)) == ScopesContents(rl.resource, rl.scopes[..n])
  {
    if n > 0 {
      var sl := rl.scopes[n - 1];
      ResourceEntriesContents(ri, rl, n - 1);
      ScopeEntriesContents(ri, n - 1, rl, |sl.records|);
      assert sl.records[..|sl.records|] == sl.records;
      assert rl.scopes[..n] == rl.scopes[..n - 1] + [sl];
      ScopesContentsLast(rl.resource, rl.scopes[..n - 1], sl);
      LabelsAppend(ResourceEntries(ri, rl, n - 1), ScopeEntries(ri, n - 1, rl, |sl.records|));
    }
  }

  lemma {:induction false} ScopeEntriesContents(ri: nat, si: nat, rl: ResourceLogs, n: nat)
    requires si < |rl.scopes| && n <= |rl.scopes[si].records|
    ensures Labels(ScopeEntries(ri, si, rl, n))
         == RecordsContents(rl.resource, rl.scopes[si].scope, rl.scopes[si].records[..n])
  {
    if n > 0 {
      ScopeEntriesContents(ri, si, rl, n - 1);
      var records := rl.scopes[si].records;
      assert records[..n][..n - 1] == records[..n - 1];
      var e := Entry(ri, si, rl.resource, rl.scopes[si].scope, records[n - 1]);
      LabelsAppend(ScopeEntries(ri, si, rl, n - 1), [e]);
    }
  }

  lemma {:induction false} LabelsAppend(a: seq<Entry>, b: seq<Entry>)
    ensures Labels(a + b) == Labels(a) + Labels(b)
  {
  }

  /** A split holds every record of the input once, in order, under its own resource and scope. */
  lemma {:induction false} SplitConserves(input: seq<ResourceLogs>, limit: int)
    ensures AllContents(Requests(input, limit)) == Contents(input)
  {
    if limit < 1 {
      assert [input][..0] == [];
    } else {
      var es := Entries(input, |input|);
      PackConserves(es, limit);
      EntriesCoherent(input, |input|);
      BuildAllContents(input, Pack(es, limit).Runs());
      EntriesContents(input, |input|);
      assert input[..|input|] == input;
    }
  }

  // ------------------------------------------------------------ sizes

  /** The length of a base-128 varint. */
  function VarintLen(n: nat): nat {
    if n < 128 then 1 else 1 + VarintLen(n / 128)
  }

  /** A length-delimited field with a one-byte tag. */
  function FieldSize(n: nat): nat {
    1 + VarintLen(n) + n
  }

  function RecordsSize(records: seq<Record>): nat {
    if records == [] then 0 else RecordsSize(records[..|records| - 1]) + FieldSize(records[|records| - 1].size)
  }

  function ScopeSize(sl: ScopeLogs): nat {
    sl.scope.size + RecordsSize(sl.records)
  }

  function ScopesSize(scopes: seq<ScopeLogs>): nat {
    if scopes == [] then 0 else ScopesSize(scopes[..|scopes| - 1]) + FieldSize(ScopeSize(scopes[|scopes| - 1]))
  }

  function ResourceSize(rl: ResourceLogs): nat {
    rl.resource.size + ScopesSize(rl.scopes)
  }

  /** The length of a request's protobuf encoding. */
  function WireSize(r: Request): nat {
    if r == [] then 0 else WireSize(r[..|r| - 1]) + FieldSize(ResourceSize(r[|r| - 1]))
  }

  const VARINT_BOUND: nat := 0x2_0000_0000_0000

  function Power128(k: nat): nat {
    if k == 0 then 1 else 128 * Power128(k - 1)
  }

  lemma {:induction false} VarintFits(n: nat, k: nat)
    requires k > 0 && n < Power128(k)
    ensures VarintLen(n) <= k
  {
    if n >= 128 {
      assert k > 1;
      VarintFits(n / 128, k - 1);
    }
  }

  lemma {:induction false} VarintBound(n: nat)
    requires n < VARINT_BOUND
    ensures VarintLen(n) <= 7
  {
    assert Power128(2) == 128 * 128;
    assert Power128(4) == 128 * 128 * 128 * 128;
    assert Power128(7) == VARINT_BOUND;
    VarintFits(n, 7);
  }

  /** The bytes the packing counts, from the request it made. */
  function RecordsEstimate(records: seq<Record>): nat {
    if records == [] then 0 else RecordsEstimate(records[..|records| - 1]) + records[|records| - 1].size + OVERHEAD
  }

  function ScopesEstimate(scopes: seq<ScopeLogs>): nat {
    if scopes == [] then 0
    else
      var last := scopes[|scopes| - 1];
      ScopesEstimate(scopes[..|scopes| - 1]) + last.scope.size + OVERHEAD + RecordsEstimate(last.records)
  }

  function Estimate(r: Request): nat {
    if r == [] then 0
    else
      var last := r[|r| - 1];
      Estimate(r[..|r| - 1]) + last.resource.size + OVERHEAD + ScopesEstimate(last.scopes)
  }

  lemma {:induction false} RecordsBound(records: seq<Record>)
    requires RecordsEstimate(records) < VARINT_BOUND
    ensures RecordsSize(records) <= RecordsEstimate(records)
  {
    if records != [] {
      RecordsBound(records[..|records| - 1]);
      VarintBound(records[|records| - 1].size);
    }
  }

  lemma {:induction false} ScopesBound(scopes: seq<ScopeLogs>)
    requires ScopesEstimate(scopes) < VARINT_BOUND
    ensures ScopesSize(scopes) <= ScopesEstimate(scopes)
  {
    if scopes != [] {
      var last := scopes[|scopes| - 1];
      ScopesBound(scopes[..|scopes| - 1]);
      RecordsBound(last.records);
      VarintBound(ScopeSize(last));
    }
  }

  /** While the estimate is below 2^49, the encoding is at most as long. */
  lemma {:induction false} EstimateBounds(r: Request)
    requires Estimate(r) < VARINT_BOUND
    ensures WireSize(r) <= Estimate(r)
  {
    if r != [] {
      var last := r[|r| - 1];
      EstimateBounds(r[..|r| - 1]);
      ScopesBound(last.scopes);
      VarintBound(ResourceSize(last));
    }
  }

  lemma {:induction false} ScopesEstimateLast(scopes: seq<ScopeLogs>, sl: ScopeLogs)
    ensures ScopesEstimate(scopes + [sl])
      == ScopesEstimate(scopes) + sl.scope.size + OVERHEAD + RecordsEstimate(sl.records)
  {
    assert (scopes + [sl])[..|scopes|] == scopes;
  }

  lemma {:induction false} PlaceEstimate(r: Request, e: Entry, newResource: bool, newScope: bool)
    requires newResource ==> newScope
    requires !newResource ==> r != [] && r[|r| - 1].scopes != []
    ensures Estimate(Place(r, e, newResource, newScope)) == Estimate(r) + e.record.size + OVERHEAD
      + (if newScope then e.scope.size + OVERHEAD else 0) + (if newResource then e.resource.size + OVERHEAD else 0)
  {
    var after := Place(r, e, newResource, newScope);
    assert RecordsEstimate([e.record]) == e.record.size + OVERHEAD by {
      assert [e.record][..0] == [];
    }
    if newResource {
      ScopesEstimateLast([], ScopeLogs(e.scope, [e.record]));
      assert after[..|r|] == r;
    } else {
      var n := |r| - 1;
      var scopes := r[n].scopes;
      var m := |scopes| - 1;
      assert after[..n] == r[..n];
      if newScope {
        ScopesEstimateLast(scopes, ScopeLogs(e.scope, [e.record]));
      } else {
        var more := ScopeLogs(scopes[m].scope, scopes[m].records + [e.record]);
        assert more.records[..|more.records| - 1] == scopes[m].records;
        ScopesEstimateLast(scopes[..m], more);
        assert scopes[m := more] == scopes[..m] + [more];
      }
    }
  }

  lemma {:induction false} BuildEstimate(es: seq<Entry>)
    ensures Estimate(Build(es)) == Cost(es)
  {
    if es != [] {
      BuildEstimate(es[..|es| - 1]);
      PlaceEstimate(Build(es[..|es| - 1]), es[|es| - 1], OpensResource(es), OpensScope(es));
    }
  }

  /** Every run of the packing is within the limit, or is a single record. */
  lemma {:induction false} PackBounded(es: seq<Entry>, limit: nat)
    ensures forall run | run in Pack(es, limit).Runs() :: Cost(run) <= limit || |run| == 1
    ensures var p := Pack(es, limit); p.current != [] ==> Cost(p.current) <= limit || |p.current| == 1
    ensures forall run | run in Pack(es, limit).closed :: Cost(run) <= limit || |run| == 1
  {
    if es != [] {
      PackBounded(es[..|es| - 1], limit);
    }
  }

  /** Each request of a split encodes to at most the limit, unless it holds one record. */
  lemma {:induction false} SplitBounded(input: seq<ResourceLogs>, limit: nat, i: nat)
    requires 1 <= limit < VARINT_BOUND && i < |Requests(input, limit)|
    ensures var r := Requests(input, limit)[i];
      WireSize(r) <= Estimate(r) <= limit || |Contents(r)| == 1
  {
    var es := Entries(input, |input|);
    var runs := Pack(es, limit).Runs();
    PackBounded(es, limit);
    assert runs[i] in runs;
    BuildEstimate(runs[i]);
    if Cost(runs[i]) <= limit {
      EstimateBounds(Build(runs[i]));
    } else {
      PackConserves(es, limit);
      EntriesCoherent(input, |input|);
      RunWithin(runs, i);
      BuildContents(input, runs[i]);
    }
  }

  lemma {:induction false} RunWithin(runs: seq<seq<Entry>>, i: nat)
    requires i < |runs|
    ensures forall e | e in runs[i] :: e in Concat(runs)
  {
    if i < |runs| - 1 {
      RunWithin(runs[..|runs| - 1], i);
    }
  }

  // ------------------------------------------------------------ optimality

  /** What the entry e costs at the start of a run that goes on with f. */
  function HeadCost(e: Entry, f: Entry): nat {
    e.record.size + OVERHEAD
    + (if e.ri != f.ri || e.si != f.si then e.scope.size + OVERHEAD else 0)
    + (if e.ri != f.ri then e.resource.size + OVERHEAD else 0)
  }

  /** Dropping the first entry of a run lowers its cost by at least its record. */
  lemma {:induction false} CostTail(input: seq<ResourceLogs>, es: seq<Entry>)
    requires Coherent(input, es) && es != []
    ensures Cost(es[1..]) <= Cost(es)
    ensures |es| > 1 ==> Cost(es) == Cost(es[1..]) + HeadCost(es[0], es[1])
  {
    var n := |es| - 1;
    if n == 0 {
      assert es[1..] == [];
    } else {
      assert es[0] in es && es[1] in es;
      var tail := es[1..];
      assert tail[..n - 1] == es[..n][1..];
      if n == 1 {
        assert es[..1][..0] == [] && tail == [es[1]] && tail[..0] == [];
        assert Cost(es[..1]) == Need(es[..1]);
      } else {
        CostTail(input, es[..n]);
        assert tail[n - 1] == es[n] && tail[n - 2] == es[n - 1];
        assert Need(tail) == Need(es);
      }
    }
  }

  lemma {:induction false} CostSuffix(input: seq<ResourceLogs>, es: seq<Entry>, k: nat)
    requires Coherent(input, es) && k <= |es|
    ensures Cost(es[k..]) <= Cost(es)
  {
    if k == 0 {
      assert es[0..] == es;
    } else {
      CostTail(input, es);
      CostSuffix(input, es[1..], k - 1);
      assert es[1..][k - 1..] == es[k..];
    }
  }

  /** A cut of the entries into requests that the limit allows. */
  ghost predicate Allowed(parts: seq<seq<Entry>>, es: seq<Entry>, limit: nat) {
    && Concat(parts) == es
    && forall part | part in parts :: part != [] && (Cost(part) <= limit || |part| == 1)
  }

  /** Fewer runs than the cut, or as many and a last one that is no longer. */
  ghost predicate Ahead(p: Packing, parts: seq<seq<Entry>>) {
    var m := |parts|;
    |p.closed| + 1 < m || (|p.closed| + 1 == m && |p.current| <= |parts[m - 1]|)
  }

  /** The packing stays ahead of any allowed cut. */
  lemma {:induction false} StaysAhead(input: seq<ResourceLogs>, es: seq<Entry>, limit: nat, parts: seq<seq<Entry>>)
    requires Coherent(input, es) && Allowed(parts, es, limit) && es != []
    ensures parts != [] && Ahead(Pack(es, limit), parts)
    decreases |es|
  {
    var n, m := |es| - 1, |parts|;
    var last := parts[m - 1];
    assert last in parts;
    if n > 0 {
      var before := parts[..m - 1] + (if |last| == 1 then [] else [last[..|last| - 1]]);
      ShorterCut(es, limit, parts);
      assert Coherent(input, es[..n]);
      StaysAhead(input, es[..n], limit, before);
      AheadStep(input, es, limit, parts, before);
    } else {
      OneEntry(es, limit, parts);
    }
  }

  lemma {:induction false} OneEntry(es: seq<Entry>, limit: nat, parts: seq<seq<Entry>>)
    requires |es| == 1 && parts != [] && parts[|parts| - 1] != []
    ensures Ahead(Pack(es, limit), parts)
  {
    assert Pack(es[..0], limit) == Packing([], []);
  }

  lemma {:induction false} AheadStep(input: seq<ResourceLogs>, es: seq<Entry>, limit: nat, parts: seq<seq<Entry>>,
      before: seq<seq<Entry>>)
    requires Coherent(input, es) && Allowed(parts, es, limit) && |es| > 1 && parts != [] && parts[|parts| - 1] != []
    requires var last := parts[|parts| - 1];
      before == parts[..|parts| - 1] + (if |last| == 1 then [] else [last[..|last| - 1]])
    requires before != [] && Ahead(Pack(es[..|es| - 1], limit), before)
    ensures Ahead(Pack(es, limit), parts)
  {
    var n, m := |es| - 1, |parts|;
    var last := parts[m - 1];
    assert last in parts;
    var p := Pack(es[..n], limit);
    if |last| == 1 {
      assert |before| == m - 1;
    } else {
      assert |before| == m && |before[m - 1]| == |last| - 1;
      if |p.closed| + 1 == m {
        assert es == Concat(parts[..m - 1]) + last;
        FitsLast(input, es, limit, last, p);
      }
    }
    FillSize(p, es[n], limit);
  }

  lemma {:induction false} FillSize(p: Packing, e: Entry, limit: nat)
    ensures var q := Fill(p, e, limit);
      || (q.closed == p.closed && |q.current| == |p.current| + 1)
      || (|q.closed| == |p.closed| + 1 && |q.current| == 1)
  {
  }

  /** An allowed cut without its last entry is allowed. */
  lemma {:induction false} ShorterCut(es: seq<Entry>, limit: nat, parts: seq<seq<Entry>>)
    requires Allowed(parts, es, limit) && parts != [] && parts[|parts| - 1] != []
    ensures var m, last := |parts|, parts[|parts| - 1];
      Allowed(parts[..m - 1] + (if |last| == 1 then [] else [last[..|last| - 1]]), es[..|es| - 1], limit)
  {
    var m := |parts|;
    var last := parts[m - 1];
    assert last in parts;
    if |last| == 1 {
      assert parts[..m - 1] + [] == parts[..m - 1];
      assert es[..|es| - 1] == Concat(parts[..m - 1]);
    } else {
      ConcatLast(parts[..m - 1], last[..|last| - 1]);
      assert es[..|es| - 1] == Concat(parts[..m - 1]) + last[..|last| - 1];
      assert Cost(last[..|last| - 1]) <= Cost(last);
    }
  }

  /** A run no longer than the other cut's last part takes the next entry too. */
  lemma {:induction false} FitsLast(input: seq<ResourceLogs>, es: seq<Entry>, limit: nat, last: seq<Entry>, p: Packing)
    requires Coherent(input, es) && es != [] && p == Pack(es[..|es| - 1], limit)
    requires |last| <= |es| && es[|es| - |last|..] == last && |p.current| < |last| && Cost(last) <= limit
    ensures Pack(es, limit).closed == p.closed
  {
    var n := |es| - 1;
    PackKeeps(es[..n], limit);
    var next := p.current + [es[n]];
    SuffixOf(es, p.current, last, Concat(p.closed));
    forall e | e in last ensures e in es {
    }
    CostSuffix(input, last, |last| - |next|);
  }

  lemma {:induction false} SuffixOf(es: seq<Entry>, current: seq<Entry>, last: seq<Entry>, closed: seq<Entry>)
    requires es != [] && closed + current == es[..|es| - 1]
    requires |current| < |last| <= |es| && es[|es| - |last|..] == last
    ensures current + [es[|es| - 1]] == last[|last| - |current| - 1..]
  {
    var n := |es| - 1;
    var next, tail := current + [es[n]], last[|last| - |current| - 1..];
    forall i | 0 <= i < |next| ensures next[i] == tail[i] {
      assert tail[i] == last[|last| - |next| + i] == es[|es| - |next| + i];
      if i < |current| {
        assert current[i] == (closed + current)[|closed| + i] == es[..n][|closed| + i];
      }
    }
  }

  /** No order-preserving cut into requests the limit allows has fewer requests than a split. */
  lemma {:induction false} SplitOptimal(input: seq<ResourceLogs>, limit: nat, parts: seq<seq<Entry>>)
    requires 1 <= limit && Allowed(parts, Entries(input, |input|), limit)
    ensures |Requests(input, limit)| <= |parts|
  {
    var es := Entries(input, |input|);
    EntriesCoherent(input, |input|);
    if es != [] {
      StaysAhead(input, es, limit, parts);
    }
  }

  /** A split is itself such a cut. */
  lemma {:induction false} SplitAllowed(input: seq<ResourceLogs>, limit: nat)
    requires 1 <= limit
    ensures Allowed(Pack(Entries(input, |input|), limit).Runs(), Entries(input, |input|), limit)
  {
    PackConserves(Entries(input, |input|), limit);
    PackBounded(Entries(input, |input|), limit);
  }
}
