/**
  The request splitting of internal/otlp/logs.go: log records, kept under their resource and
  scope, are packed in order into requests of at most a limit of bytes.

  A record is looked at as an entry: which resource and scope of the input it belongs to.
  A request is the nesting of a run of entries; its cost counts each header once.
*/
module OtlpSplit {

  datatype Header = Header(name: string, size: nat)
  datatype Record = Record(body: string, size: nat)
  datatype ScopeLogs = ScopeLogs(scope: Header, records: seq<Record>)
  datatype ResourceLogs = ResourceLogs(resource: Header, scopes: seq<ScopeLogs>)
  type Request = seq<ResourceLogs>

  /** What the packing counts for the tag and length of a nested message. */
  const OVERHEAD: nat := 8

  // ------------------------------------------------------------ entries

  datatype Entry = Entry(ri: nat, si: nat, resource: Header, scope: Header, record: Record)

  function ScopeEntries(ri: nat, si: nat, rl: ResourceLogs, n: nat): seq<Entry>
    requires si < |rl.scopes| && n <= |rl.scopes[si].records|
  {
    if n == 0 then []
    else
      ScopeEntries(ri, si, rl, n - 1)
      + [Entry(ri, si, rl.resource, rl.scopes[si].scope, rl.scopes[si].records[n - 1])]
  }

  function ResourceEntries(ri: nat, rl: ResourceLogs, n: nat): seq<Entry>
    requires n <= |rl.scopes|
  {
    if n == 0 then []
    else ResourceEntries(ri, rl, n - 1) + ScopeEntries(ri, n - 1, rl, |rl.scopes[n - 1].records|)
  }

  /** The records of the first n resources, in order. */
  function Entries(input: seq<ResourceLogs>, n: nat): seq<Entry>
    requires n <= |input|
  {
    if n == 0 then [] else Entries(input, n - 1) + ResourceEntries(n - 1, input[n - 1], |input[n - 1].scopes|)
  }

  /** Every entry carries the headers of its resource and scope. */
  ghost predicate Coherent(input: seq<ResourceLogs>, es: seq<Entry>) {
    forall e | e in es ::
      && e.ri < |input| && e.resource == input[e.ri].resource
      && e.si < |input[e.ri].scopes| && e.scope == input[e.ri].scopes[e.si].scope
  }

  lemma {:induction false} EntriesCoherent(input: seq<ResourceLogs>, n: nat)
    requires n <= |input|
    ensures Coherent(input, Entries(input, n))
  {
    if n > 0 {
      EntriesCoherent(input, n - 1);
      ResourceEntriesCoherent(input, n - 1, |input[n - 1].scopes|);
    }
  }

  lemma {:induction false} ResourceEntriesCoherent(input: seq<ResourceLogs>, ri: nat, n: nat)
    requires ri < |input| && n <= |input[ri].scopes|
    ensures Coherent(input, ResourceEntries(ri, input[ri], n))
  {
    if n > 0 {
      ResourceEntriesCoherent(input, ri, n - 1);
      ScopeEntriesCoherent(input, ri, n - 1, |input[ri].scopes[n - 1].records|);
    }
  }

  lemma {:induction false} ScopeEntriesCoherent(input: seq<ResourceLogs>, ri: nat, si: nat, n: nat)
    requires ri < |input| && si < |input[ri].scopes| && n <= |input[ri].scopes[si].records|
    ensures Coherent(input, ScopeEntries(ri, si, input[ri], n))
  {
    if n > 0 {
      ScopeEntriesCoherent(input, ri, si, n - 1);
    }
  }

  // ------------------------------------------------------------ requests

  /** The last entry of es opens a new resource in the request, or a new scope. */
  predicate OpensResource(es: seq<Entry>)
    requires es != []
  {
    |es| == 1 || es[|es| - 2].ri != es[|es| - 1].ri
  }

  predicate OpensScope(es: seq<Entry>)
    requires es != []
  {
    OpensResource(es) || es[|es| - 2].si != es[|es| - 1].si
  }

  /** The bytes counted for the entries in one request: each record, and each header once. */
  function Cost(es: seq<Entry>): nat {
    if es == [] then 0 else Cost(es[..|es| - 1]) + Need(es)
  }

  function Need(es: seq<Entry>): (n: nat)
    requires es != []
    ensures n >= OVERHEAD
  {
    var e := es[|es| - 1];
    e.record.size + OVERHEAD
    + (if OpensScope(es) then e.scope.size + OVERHEAD else 0)
    + (if OpensResource(es) then e.resource.size + OVERHEAD else 0)
  }

  /** The request that holds the entries. */
  function Build(es: seq<Entry>): (r: Request)
    ensures es == [] <==> r == []
    ensures es != [] ==> r[|r| - 1].scopes != []
  {
    if es == [] then [] else Place(Build(es[..|es| - 1]), es[|es| - 1], OpensResource(es), OpensScope(es))
  }

  /** A request with one more record. */
  function Place(r: Request, e: Entry, newResource: bool, newScope: bool): (after: Request)
    requires !newResource ==> r != [] && r[|r| - 1].scopes != []
    requires newResource ==> newScope
    ensures after != [] && after[|after| - 1].scopes != []
  {
    if newResource then r + [ResourceLogs(e.resource, [ScopeLogs(e.scope, [e.record])])]
    else
      var n := |r| - 1;
      var scopes := r[n].scopes;
      var m := |scopes| - 1;
      r[n := ResourceLogs(r[n].resource,
        if newScope then scopes + [ScopeLogs(e.scope, [e.record])]
        else scopes[m := ScopeLogs(scopes[m].scope, scopes[m].records + [e.record])])]
  }

  // ------------------------------------------------------------ greedy packing

  /** The runs of entries closed so far, and the one being filled. */
  datatype Packing = Packing(closed: seq<seq<Entry>>, current: seq<Entry>) {
    function Runs(): seq<seq<Entry>> {
      if current == [] then closed else closed + [current]
    }
  }

  function Pack(es: seq<Entry>, limit: nat): Packing {
    if es == [] then Packing([], [])
    else Fill(Pack(es[..|es| - 1], limit), es[|es| - 1], limit)
  }

  function Fill(p: Packing, e: Entry, limit: nat): Packing {
    if p.current != [] && Cost(p.current + [e]) > limit then Packing(p.closed + [p.current], [e])
    else Packing(p.closed, p.current + [e])
  }

  function BuildAll(runs: seq<seq<Entry>>): (r: seq<Request>)
    ensures |r| == |runs|
  {
    seq(|runs|, i requires 0 <= i < |runs| => Build(runs[i]))
  }

  /** What a split of the input is. */
  function Requests(input: seq<ResourceLogs>, limit: int): seq<Request> {
    if limit < 1 then [input] else BuildAll(Pack(Entries(input, |input|), limit).Runs())
  }

  /** The variables of the packing loop, against the packing they stand for. */
  datatype Loop = Loop(requests: seq<Request>, current: Request, size: nat, inResource: bool, inScope: bool) {
    ghost predicate Holds(p: Packing) {
      requests == BuildAll(p.closed) && current == Build(p.current) && size == Cost(p.current)
    }

    /** The request being filled ends in scope s of resource r, or before it. */
    ghost predicate At(p: Packing, r: nat, s: int) {
      && (inResource <==> p.current != [] && p.current[|p.current| - 1].ri == r)
      && (inScope <==> inResource && p.current[|p.current| - 1].si == s)
      && (p.current != [] ==>
          var e := p.current[|p.current| - 1]; e.ri <= r && (e.ri == r ==> e.si <= s))
    }
  }

  /** One record: close the current request if the record would take it past the limit, then put
      the record in. */
  method AddRecord(l: Loop, e: Entry, limit: nat, ghost p: Packing) returns (l': Loop)
    requires l.Holds(p) && l.At(p, e.ri, e.si)
    ensures l'.Holds(Fill(p, e, limit)) && l'.At(Fill(p, e, limit), e.ri, e.si)
  {
    var scopeSize, resourceSize := e.scope.size + OVERHEAD, e.resource.size + OVERHEAD;
    var requests, current, size, inResource, inScope := l.requests, l.current, l.size, l.inResource, l.inScope;
    var need := e.record.size + OVERHEAD;
    if !inScope { need := need + scopeSize; }
    if !inResource { need := need + resourceSize; }
    FillStep(p, e);
    if size > 0 && size + need > limit {
      requests := requests + [current];
      current, size := [], 0;
      if inScope { need := need + scopeSize; }
      if inResource { need := need + resourceSize; }
      inResource, inScope := false, false;
    }
    current := Place(current, e, !inResource, !inScope);
    size := size + need;
    return Loop(requests, current, size, true, true);
  }

  /** The packing loops. */
  method Split(input: seq<ResourceLogs>, limit: int) returns (requests: seq<Request>)
    ensures requests == Requests(input, limit)
  {
    if limit < 1 {
      return [input];
    }
    var l := Loop([], [], 0, false, false);
    for r := 0 to |input|
      invariant l.Holds(Pack(Entries(input, r), limit))
      invariant var p := Pack(Entries(input, r), limit); p.current != [] ==> p.current[|p.current| - 1].ri < r
    {
      l := SplitResource(l, r, input[r], limit, Entries(input, r));
    }
    requests := l.requests;
    if l.current != [] {
      requests := requests + [l.current];
    }
    LastRun(l, Pack(Entries(input, |input|), limit));
  }

  /** What is left in the loop's variables is the run being filled. */
  lemma {:induction false} LastRun(l: Loop, p: Packing)
    requires l.Holds(p)
    ensures BuildAll(p.Runs()) == l.requests + (if l.current != [] then [l.current] else [])
  {
    assert BuildAll(p.closed + [p.current]) == BuildAll(p.closed) + [Build(p.current)];
  }

  method SplitResource(l: Loop, r: nat, rl: ResourceLogs, limit: nat, ghost done: seq<Entry>) returns (l': Loop)
    requires l.Holds(Pack(done, limit))
    requires var p := Pack(done, limit); p.current != [] ==> p.current[|p.current| - 1].ri < r
    ensures var p := Pack(done + ResourceEntries(r, rl, |rl.scopes|), limit);
      l'.Holds(p) && (p.current != [] ==> p.current[|p.current| - 1].ri <= r)
  {
    l' := l.(inResource := false, inScope := false);
    ghost var all := done;
    for s := 0 to |rl.scopes|
      invariant all == done + ResourceEntries(r, rl, s)
      invariant l'.Holds(Pack(all, limit)) && l'.At(Pack(all, limit), r, s - 1)
    {
      NextScope(done, r, s, rl);
      l' := SplitScope(l', r, s, rl, limit, all);
      all := all + ScopeEntries(r, s, rl, |rl.scopes[s].records|);
    }
  }

  method SplitScope(l: Loop, r: nat, s: nat, rl: ResourceLogs, limit: nat, ghost done: seq<Entry>) returns (l': Loop)
    requires s < |rl.scopes|
    requires l.Holds(Pack(done, limit)) && l.At(Pack(done, limit), r, s - 1)
    ensures l'.Holds(Pack(done + ScopeEntries(r, s, rl, |rl.scopes[s].records|), limit))
    ensures l'.At(Pack(done + ScopeEntries(r, s, rl, |rl.scopes[s].records|), limit), r, s)
  {
    var sl := rl.scopes[s];
    l' := l.(inScope := false);
    ghost var all := done;
    assert done + ScopeEntries(r, s, rl, 0) == done;
    for k := 0 to |sl.records|
      invariant all == done + ScopeEntries(r, s, rl, k)
      invariant l'.Holds(Pack(all, limit)) && l'.At(Pack(all, limit), r, s)
    {
      l' := SplitRecord(l', r, s, rl, k, limit, all);
      NextRecord(done, r, s, rl, k);
      all := all + [Entry(r, s, rl.resource, sl.scope, sl.records[k])];
    }
  }

  method SplitRecord(l: Loop, r: nat, s: nat, rl: ResourceLogs, k: nat, limit: nat, ghost done: seq<Entry>)
      returns (l': Loop)
    requires s < |rl.scopes| && k < |rl.scopes[s].records|
    requires l.Holds(Pack(done, limit)) && l.At(Pack(done, limit), r, s)
    ensures var next := done + [Entry(r, s, rl.resource, rl.scopes[s].scope, rl.scopes[s].records[k])];
      l'.Holds(Pack(next, limit)) && l'.At(Pack(next, limit), r, s)
  {
    var e := Entry(r, s, rl.resource, rl.scopes[s].scope, rl.scopes[s].records[k]);
    PackStep(done, e, limit);
    l' := AddRecord(l, e, limit, Pack(done, limit));
  }

  lemma {:induction false} NextScope(done: seq<Entry>, r: nat, s: nat, rl: ResourceLogs)
    requires s < |rl.scopes|
    ensures done + ResourceEntries(r, rl, s + 1)
         == done + ResourceEntries(r, rl, s) + ScopeEntries(r, s, rl, |rl.scopes[s].records|)
  {
  }

  lemma {:induction false} NextRecord(done: seq<Entry>, r: nat, s: nat, rl: ResourceLogs, k: nat)
    requires s < |rl.scopes| && k < |rl.scopes[s].records|
    ensures done + ScopeEntries(r, s, rl, k + 1) == done + ScopeEntries(r, s, rl, k)
         + [Entry(r, s, rl.resource, rl.scopes[s].scope, rl.scopes[s].records[k])]
  {
  }

  lemma {:induction false} PackStep(done: seq<Entry>, e: Entry, limit: nat)
    ensures Pack(done + [e], limit) == Fill(Pack(done, limit), e, limit)
  {
    assert (done + [e])[..|done|] == done;
  }

  lemma {:induction false} FillStep(p: Packing, e: Entry)
    ensures BuildAll(p.closed + [p.current]) == BuildAll(p.closed) + [Build(p.current)]
    ensures Cost(p.current + [e]) == Cost(p.current) + Need(p.current + [e])
    ensures Cost([e]) == Need([e]) && Build([e]) == Place([], e, true, true)
    ensures Build(p.current + [e])
      == Place(Build(p.current), e, OpensResource(p.current + [e]), OpensScope(p.current + [e]))
    ensures Cost(p.current) > 0 <==> p.current != []
  {
    assert (p.current + [e])[..|p.current|] == p.current;
    assert [e][..0] == [];
  }
}
