/** Attempt-scoped evidence handles, and the replay of a checkpointed report by later attempts. */
module Evidence {
  import opened Rows

  /* ----- reading an immutable snapshot ----- */

  /** A range of complete lines. Its content stands for its hash: equal hashes mean equal lines. */
  datatype Range = Range(start: int, end: int, content: seq<string>)

  /** How many leading lines fit, counting one separator between two lines. */
  function Fitting(lines: seq<string>, budget: int): (n: nat)
    ensures n <= |lines|
  {
    if lines == [] || |lines[0]| > budget then 0
    else 1 + Fitting(lines[1..], budget - |lines[0]| - 1)
  }

  function ReadRange(file: seq<string>, startLine: int, endLine: int, maxBytes: int): Option<Range> {
    var s := if startLine <= 0 then 1 else startLine;
    if (endLine > 0 && s > endLine) || s > |file| then None
    else
      var last := if endLine <= 0 || endLine > |file| then |file| else endLine;
      if maxBytes <= 0 then Some(Range(s, last, file[s - 1..last]))
      else
        var n := Fitting(file[s - 1..last], maxBytes);
        if n == 0 then None else Some(Range(s, s + n - 1, file[s - 1..s - 1 + n]))
  }

  /** The bytes of some lines, with one separator between two of them. */
  function Bytes(lines: seq<string>): nat {
    if lines == [] then 0 else |lines[0]| + if |lines| == 1 then 0 else 1 + Bytes(lines[1..])
  }

  lemma {:induction false} FittingIsLongest(lines: seq<string>, budget: int)
    ensures var n := Fitting(lines, budget);
      && (n > 0 ==> Bytes(lines[..n]) <= budget)
      && (n < |lines| ==> Bytes(lines[..n + 1]) > budget)
    decreases |lines|
  {
    if lines != [] && |lines[0]| <= budget {
      FittingIsLongest(lines[1..], budget - |lines[0]| - 1);
      var n := Fitting(lines, budget);
      assert lines[..n][1..] == lines[1..][..n - 1];
      if n < |lines| { assert lines[..n + 1][1..] == lines[1..][..n]; }
    }
  }

  lemma FittingInFile(file: seq<string>, from: nat, last: nat, budget: int)
    requires from < last <= |file|
    ensures var n := Fitting(file[from..last], budget);
      && (n == 0 ==> |file[from]| > budget)
      && (n > 0 ==> Bytes(file[from..from + n]) <= budget)
      && (n < last - from ==> Bytes(file[from..from + n + 1]) > budget)
  {
    var lines := file[from..last];
    var n := Fitting(lines, budget);
    FittingIsLongest(lines, budget);
    assert lines[..n] == file[from..from + n];
    if n < |lines| { assert lines[..n + 1] == file[from..from + n + 1]; }
  }

  /** A read starts at the first line asked for and returns whole lines: all up to the last one, or as many of
      them as fit the bound. It fails exactly if there is no such line or if not even the first one fits. */
  lemma ReadsWholeLines(file: seq<string>, startLine: int, endLine: int, maxBytes: int)
    ensures var s := if startLine <= 0 then 1 else startLine;
      var last := if 0 < endLine <= |file| then endLine else |file|;
      match ReadRange(file, startLine, endLine, maxBytes) {
        case None => s > last || (endLine > 0 && s > endLine) || (maxBytes > 0 && |file[s - 1]| > maxBytes)
        case Some(r) =>
          && r.start == s <= r.end <= last && r.content == file[s - 1..r.end]
          && (maxBytes > 0 ==> Bytes(r.content) <= maxBytes)
          && (r.end < last ==> maxBytes > 0 && Bytes(file[s - 1..r.end + 1]) > maxBytes)
      }
  {
    hide Fitting, Bytes;
    var s := if startLine <= 0 then 1 else startLine;
    var last := if 0 < endLine <= |file| then endLine else |file|;
    if s <= last && (endLine > 0 ==> s <= endLine) { FittingInFile(file, s - 1, last, maxBytes); }
  }

  /** Whatever a bounded read returned, reading the returned lines again without a bound gives the same. */
  lemma ReadAgain(file: seq<string>, startLine: int, endLine: int, maxBytes: int)
    requires ReadRange(file, startLine, endLine, maxBytes).Some?
    ensures var r := ReadRange(file, startLine, endLine, maxBytes).value; ReadRange(file, r.start, r.end, 0) == Some(r)
  {
  }

  /* ----- evidence items ----- */

  /** What an attempt may cite from: its run, the snapshot and the code index build of that run. */
  datatype Lineage = Lineage(run: nat, snapshot: nat, build: nat)

  datatype Item = Item(attempt: nat, lineage: Lineage, path: string, start: int, end: int, content: seq<string>,
                       excerpt: seq<string>)

  /** The parts of the world that never change: snapshot files, the access policy, the redaction of a content, and which
      run every attempt belongs to. */
  datatype World = World(files: map<(nat, string), seq<string>>, denied: set<string>,
                         redact: seq<string> -> seq<string>, lineages: map<nat, Lineage>)

  function Source(w: World, snapshot: nat, path: string, startLine: int, endLine: int, maxBytes: int): Option<Range> {
    if path in w.denied || (snapshot, path) !in w.files then None
    else ReadRange(w.files[(snapshot, path)], startLine, endLine, maxBytes)
  }

  predicate Canonical(i: Item, attempt: nat, snapshot: nat, path: string, r: Range) {
    && i.attempt == attempt && i.lineage.snapshot == snapshot && i.path == path
    && i.start == r.start && i.end == r.end && i.content == r.content
  }

  function FindCanonical(items: seq<Item>, attempt: nat, snapshot: nat, path: string, r: Range): (id: Option<nat>)
    ensures id.Some? ==> id.value < |items| && Canonical(items[id.value], attempt, snapshot, path, r)
  {
    if items == [] then None
    else
      var earlier := FindCanonical(items[..|items| - 1], attempt, snapshot, path, r);
      if earlier.Some? then earlier
      else if Canonical(items[|items| - 1], attempt, snapshot, path, r) then Some(|items| - 1) else None
  }

  datatype IssueRequest = IssueRequest(attempt: nat, lineage: Lineage, path: string, start: int, end: int,
                                       maxBytes: int)

  datatype Issued = Issued(items: seq<Item>, id: Option<nat>)

  /** Find or create the handle of an attempt for a source range. */
  function Issue(w: World, items: seq<Item>, req: IssueRequest): Issued {
    var r := Source(w, req.lineage.snapshot, req.path, req.start, req.end, req.maxBytes);
    if req.attempt !in w.lineages || w.lineages[req.attempt] != req.lineage || r.None? then Issued(items, None)
    else
      var found := FindCanonical(items, req.attempt, req.lineage.snapshot, req.path, r.value);
      if found.Some? then Issued(items, found)
      else
        var item := Item(req.attempt, req.lineage, req.path, r.value.start, r.value.end, r.value.content,
                         w.redact(r.value.content));
        Issued(items + [item], Some(|items|))
  }

  /** The item was issued: its attempt has its lineage, and its range still reads the same. */
  predicate Genuine(w: World, i: Item) {
    && i.attempt in w.lineages && w.lineages[i.attempt] == i.lineage
    && Source(w, i.lineage.snapshot, i.path, i.start, i.end, 0) == Some(Range(i.start, i.end, i.content))
    && i.excerpt == w.redact(i.content)
  }

  predicate AllGenuine(w: World, items: seq<Item>) { forall k | 0 <= k < |items| :: Genuine(w, items[k]) }

  /** Issuing keeps every handle genuine and never touches an existing one. */
  lemma IssueKeepsGenuine(w: World, items: seq<Item>, req: IssueRequest)
    requires AllGenuine(w, items)
    ensures AllGenuine(w, Issue(w, items, req).items) && items <= Issue(w, items, req).items
  {
    var r := Source(w, req.lineage.snapshot, req.path, req.start, req.end, req.maxBytes);
    if r.Some? { ReadAgain(w.files[(req.lineage.snapshot, req.path)], req.start, req.end, req.maxBytes); }
  }

  /** A handle is issued exactly for an attempt of this lineage and a readable range, once for each range: the
      item names its own attempt and path, the lines that were read and their redaction. */
  lemma IssueExact(w: World, items: seq<Item>, req: IssueRequest)
    requires AllGenuine(w, items)
    ensures var e := Issue(w, items, req);
      match Source(w, req.lineage.snapshot, req.path, req.start, req.end, req.maxBytes) {
        case None => e == Issued(items, None)
        case Some(r) =>
          if !(req.attempt in w.lineages && w.lineages[req.attempt] == req.lineage) then e == Issued(items, None)
          else
            && e.id.Some? && e.id.value < |e.items| && (|e.items| > |items| ==> e.id.value == |items|)
            && e.items[e.id.value]
            == Item(req.attempt, req.lineage, req.path, r.start, r.end, r.content, w.redact(r.content))
      }
  {
    IssueKeepsGenuine(w, items, req);
    var e := Issue(w, items, req);
    if e.id.Some? { assert Genuine(w, e.items[e.id.value]); }
  }

  /** Asking again gives the same handle and no new one. */
  lemma IssueAgain(w: World, items: seq<Item>, req: IssueRequest)
    requires Issue(w, items, req).id.Some?
    ensures Issue(w, Issue(w, items, req).items, req) == Issue(w, items, req)
  {
    var e := Issue(w, items, req);
    if |e.items| > |items| { assert e.items[..|e.items| - 1] == items; }
  }

  /* ----- drafts and reports ----- */

  /** A model citation: no handle, a handle the server issued, or a string it never issued. */
  datatype Ref = NoRef(reason: string) | Handle(id: nat, reason: string) | Forged(reason: string)

  datatype CitationError =
    | EvidenceIdEmpty
    | EvidenceNotFound
    | AttemptMismatch
    | LineageMismatch
    | SourceUnavailable
    | HashMismatch

  datatype Citation =
    | Invalid(reason: string, error: CitationError)
    | Valid(reason: string, path: string, start: int, end: int, content: seq<string>, excerpt: seq<string>)

  function Verify(w: World, i: Item, attempt: nat, l: Lineage): Option<CitationError> {
    var r := Source(w, i.lineage.snapshot, i.path, i.start, i.end, 0);
    if i.attempt != attempt then Some(AttemptMismatch)
    else if i.lineage != l then Some(LineageMismatch)
    else if r.None? then Some(SourceUnavailable)
    else if r.value.content != i.content || r.value.start != i.start || r.value.end != i.end then Some(HashMismatch)
    else None
  }

  function Resolve(w: World, items: seq<Item>, attempt: nat, l: Lineage, ref: Ref): Citation {
    if ref.NoRef? then Invalid(ref.reason, EvidenceIdEmpty)
    else if ref.Forged? || ref.id >= |items| then Invalid(ref.reason, EvidenceNotFound)
    else
      var i := items[ref.id];
      var bad := Verify(w, i, attempt, l);
      if bad.Some? then Invalid(ref.reason, bad.value)
      else Valid(ref.reason, i.path, i.start, i.end, i.content, i.excerpt)
  }

  function Resolved(w: World, items: seq<Item>, attempt: nat, l: Lineage, refs: seq<Ref>): seq<Citation> {
    seq(|refs|, k requires 0 <= k < |refs| => Resolve(w, items, attempt, l, refs[k]))
  }

  /** The item that a citation names is one of this attempt and lineage, and its lines still read the same. */
  predicate Backed(w: World, items: seq<Item>, attempt: nat, l: Lineage, ref: Ref) {
    && ref.Handle? && ref.id < |items| && items[ref.id].attempt == attempt && items[ref.id].lineage == l
    && Source(w, l.snapshot, items[ref.id].path, items[ref.id].start, items[ref.id].end, 0)
    == Some(Range(items[ref.id].start, items[ref.id].end, items[ref.id].content))
  }

  /** A citation of a report is valid exactly if it is backed, and then shows the place and the excerpt of its
      item; otherwise its error says what is missing. */
  predicate Cites(w: World, items: seq<Item>, attempt: nat, l: Lineage, ref: Ref, c: Citation) {
    && c.reason == ref.reason && (c.Valid? <==> Backed(w, items, attempt, l, ref))
    && match c {
      case Valid(_, path, start, end, content, excerpt) =>
        path == items[ref.id].path && start == items[ref.id].start && end == items[ref.id].end
        && content == items[ref.id].content && excerpt == items[ref.id].excerpt
      case Invalid(_, error) =>
        && (error.EvidenceIdEmpty? <==> ref.NoRef?)
        && (error.EvidenceNotFound? <==> ref.Forged? || (ref.Handle? && ref.id >= |items|))
        && (error.AttemptMismatch? <==> ref.Handle? && ref.id < |items| && items[ref.id].attempt != attempt)
        && (error.LineageMismatch? ==> items[ref.id].lineage != l)
        && (error.SourceUnavailable? || error.HashMismatch? ==>
              items[ref.id].lineage == l
              && (error.SourceUnavailable? <==>
                    Source(w, l.snapshot, items[ref.id].path, items[ref.id].start, items[ref.id].end, 0).None?))
    }
  }

  lemma ResolveCites(w: World, items: seq<Item>, attempt: nat, l: Lineage, ref: Ref)
    ensures Cites(w, items, attempt, l, ref, Resolve(w, items, attempt, l, ref))
  {
  }

  /** A valid citation of issued evidence quotes the snapshot: its lines are those of the file, and its excerpt
      is their redaction. */
  predicate Quotes(w: World, l: Lineage, c: Citation) {
    c.Valid? ==>
      && Source(w, l.snapshot, c.path, c.start, c.end, 0) == Some(Range(c.start, c.end, c.content))
      && c.excerpt == w.redact(c.content)
  }

  lemma CitesQuotes(w: World, items: seq<Item>, attempt: nat, l: Lineage, ref: Ref, c: Citation)
    requires AllGenuine(w, items) && Cites(w, items, attempt, l, ref, c)
    ensures Quotes(w, l, c)
  {
    if c.Valid? { assert Genuine(w, items[ref.id]); }
  }

  /** Two citations tell the reader the same: same validity, place, lines and excerpt. */
  predicate SameCitation(c: Citation, d: Citation) {
    c.reason == d.reason && (c.Valid? || d.Valid? ==> c == d)
  }

  predicate SameReport(r: seq<Citation>, q: seq<Citation>) {
    |r| == |q| && forall k | 0 <= k < |r| :: SameCitation(r[k], q[k])
  }

  /* ----- rebinding ----- */

  datatype Rebound = Rebound(items: seq<Item>, refs: seq<Ref>)

  /** One citation of the checkpoint of attempt a is carried over to attempt b. */
  function RebindOne(w: World, items: seq<Item>, a: nat, b: nat, l: Lineage, ref: Ref): (Issued, Ref) {
    if !ref.Handle? || ref.id >= |items| || items[ref.id].attempt != a || items[ref.id].lineage != l then
      (Issued(items, None), ref)
    else
      var i := items[ref.id];
      var issued := Issue(w, items, IssueRequest(b, l, i.path, i.start, i.end, 0));
      (issued, if issued.id.Some? then ref.(id := issued.id.value) else ref)
  }

  function Rebind(w: World, items: seq<Item>, a: nat, b: nat, l: Lineage, refs: seq<Ref>): Rebound {
    if refs == [] then Rebound(items, [])
    else
      var before := Rebind(w, items, a, b, l, refs[..|refs| - 1]);
      var one := RebindOne(w, before.items, a, b, l, refs[|refs| - 1]);
      Rebound(one.0.items, before.refs + [one.1])
  }

  /** A handle of a genuine item is valid exactly for its own attempt. */
  lemma GenuineResolves(w: World, items: seq<Item>, attempt: nat, l: Lineage, ref: Ref)
    requires AllGenuine(w, items) && attempt in w.lineages && w.lineages[attempt] == l
    ensures Resolve(w, items, attempt, l, ref).Valid? <==>
      ref.Handle? && ref.id < |items| && items[ref.id].attempt == attempt
  {
    if ref.Handle? && ref.id < |items| { assert Genuine(w, items[ref.id]); }
  }

  /** Carrying one citation over preserves what it resolves to. */
  lemma RebindOnePreserves(w: World, items: seq<Item>, known: nat, a: nat, b: nat, l: Lineage, ref: Ref)
    requires AllGenuine(w, items) && a != b && a in w.lineages && b in w.lineages && w.lineages[a] == l
    requires w.lineages[b] == l
    requires known <= |items| && (ref.Handle? ==> ref.id < known) && forall k | 0 <= k < known :: items[k].attempt != b
    ensures var (issued, out) := RebindOne(w, items, a, b, l, ref);
      && AllGenuine(w, issued.items) && items <= issued.items && (out.Handle? ==> out.id < |issued.items|)
      && SameCitation(Resolve(w, items, a, l, ref), Resolve(w, issued.items, b, l, out))
  {
    var (issued, out) := RebindOne(w, items, a, b, l, ref);
    GenuineResolves(w, items, a, l, ref);
    if ref.Handle? && items[ref.id].attempt == a {
      var i := items[ref.id];
      assert Genuine(w, i);
      IssueKeepsGenuine(w, items, IssueRequest(b, l, i.path, i.start, i.end, 0));
      assert Genuine(w, issued.items[issued.id.value]);
    } else {
      GenuineResolves(w, items, b, l, ref);
    }
  }

  /** A handle keeps its meaning when later handles are issued. */
  lemma ResolveStable(w: World, items: seq<Item>, more: seq<Item>, attempt: nat, l: Lineage, ref: Ref)
    requires items <= more && (ref.Handle? ==> ref.id < |items|)
    ensures Resolve(w, more, attempt, l, ref) == Resolve(w, items, attempt, l, ref)
  {
  }

  predicate Known(refs: seq<Ref>, n: nat) { forall k | 0 <= k < |refs| :: refs[k].Handle? ==> refs[k].id < n }

  /** Rebinding a whole draft preserves the resolved report. */
  lemma {:induction false} RebindPreserves(w: World, items: seq<Item>, a: nat, b: nat, l: Lineage, refs: seq<Ref>)
    requires AllGenuine(w, items) && a != b && a in w.lineages && b in w.lineages && w.lineages[a] == l
    requires w.lineages[b] == l
    requires Known(refs, |items|) && forall k | 0 <= k < |items| :: items[k].attempt != b
    ensures var r := Rebind(w, items, a, b, l, refs);
      && AllGenuine(w, r.items) && items <= r.items && |r.refs| == |refs| && Known(r.refs, |r.items|)
      && SameReport(Resolved(w, items, a, l, refs), Resolved(w, r.items, b, l, r.refs))
  {
    hide Resolve, Genuine, RebindOne;
    if refs != [] {
      var n := |refs| - 1;
      RebindPreserves(w, items, a, b, l, refs[..n]);
      var before := Rebind(w, items, a, b, l, refs[..n]);
      RebindOnePreserves(w, before.items, |items|, a, b, l, refs[n]);
      var r := Rebind(w, items, a, b, l, refs);
      ResolveStable(w, items, before.items, a, l, refs[n]);
      forall k | 0 <= k < |refs|
        ensures SameCitation(Resolve(w, items, a, l, refs[k]), Resolve(w, r.items, b, l, r.refs[k]))
      {
        if k < n {
          ResolveStable(w, before.items, r.items, b, l, before.refs[k]);
          assert SameCitation(Resolved(w, items, a, l, refs[..n])[k], Resolved(w, before.items, b, l, before.refs)[k]);
        }
      }
    }
  }

  /* ----- any number of later attempts ----- */

  /** Attempts replay one after the other, each from the checkpoint of the one before. */
  function Replay(w: World, items: seq<Item>, a: nat, later: seq<nat>, l: Lineage, refs: seq<Ref>): Rebound
    decreases |later|
  {
    if later == [] then Rebound(items, refs)
    else
      var r := Rebind(w, items, a, later[0], l, refs);
      Replay(w, r.items, later[0], later[1..], l, r.refs)
  }

  lemma {:induction false} RebindAttempts(w: World, items: seq<Item>, a: nat, b: nat, l: Lineage, refs: seq<Ref>,
                                          c: nat)
    requires c != b && forall k | 0 <= k < |items| :: items[k].attempt != c
    ensures forall k | 0 <= k < |Rebind(w, items, a, b, l, refs).items| ::
      Rebind(w, items, a, b, l, refs).items[k].attempt != c
  {
    if refs != [] { RebindAttempts(w, items, a, b, l, refs[..|refs| - 1], c); }
  }

  lemma SameTwice(p: seq<Citation>, q: seq<Citation>, r: seq<Citation>)
    requires SameReport(p, q) && SameReport(q, r)
    ensures SameReport(p, r)
  {
    forall k | 0 <= k < |p| ensures SameCitation(p[k], r[k]) {
      assert SameCitation(p[k], q[k]) && SameCitation(q[k], r[k]);
    }
  }

  /** Replaying a checkpoint through any number of later attempts of the run preserves the report:
      every citation keeps its validity, path, line range, content hash and excerpt. */
  lemma {:induction false} ReplayPreserves(w: World, items: seq<Item>, a: nat, later: seq<nat>, l: Lineage,
                                           refs: seq<Ref>)
    requires AllGenuine(w, items) && a in w.lineages && w.lineages[a] == l && Known(refs, |items|)
    requires a !in later && forall i, k | 0 <= i < k < |later| :: later[i] != later[k]
    requires forall i | 0 <= i < |later| :: later[i] in w.lineages && w.lineages[later[i]] == l
    requires forall i, k | 0 <= i < |later| && 0 <= k < |items| :: items[k].attempt != later[i]
    ensures var r := Replay(w, items, a, later, l, refs);
      SameReport(Resolved(w, items, a, l, refs),
                 Resolved(w, r.items, if later == [] then a else later[|later| - 1], l, r.refs))
    decreases |later|
  {
    hide Rebind, Resolve;
    if later != [] {
      var b := later[0];
      RebindPreserves(w, items, a, b, l, refs);
      var r := Rebind(w, items, a, b, l, refs);
      var rest := later[1..];
      forall i, k | 0 <= i < |rest| && 0 <= k < |r.items| ensures r.items[k].attempt != rest[i] {
        RebindAttempts(w, items, a, b, l, refs, rest[i]);
      }
      ReplayPreserves(w, r.items, b, rest, l, r.refs);
      var q := Replay(w, r.items, b, rest, l, r.refs);
      SameTwice(Resolved(w, items, a, l, refs), Resolved(w, r.items, b, l, r.refs),
        Resolved(w, q.items, if rest == [] then b else rest[|rest| - 1], l, q.refs));
    }
  }

  /* ----- the issuer service ----- */

  /** A finding of a draft or of a report: here only its citations matter. */
  function Flat<T>(findings: seq<seq<T>>): seq<T> {
    if findings == [] then [] else Flat(findings[..|findings| - 1]) + findings[|findings| - 1]
  }

  predicate SameShape<T, U>(a: seq<seq<T>>, b: seq<seq<U>>) {
    |a| == |b| && forall f | 0 <= f < |a| :: |a[f]| == |b[f]|
  }

  lemma RebindNext(w: World, items: seq<Item>, a: nat, b: nat, l: Lineage, refs: seq<Ref>, ref: Ref)
    ensures var before := Rebind(w, items, a, b, l, refs); var one := RebindOne(w, before.items, a, b, l, ref);
      Rebind(w, items, a, b, l, refs + [ref]) == Rebound(one.0.items, before.refs + [one.1])
  {
    assert (refs + [ref])[..|refs|] == refs;
  }

  lemma FlatNext<T>(findings: seq<seq<T>>, f: nat)
    requires f < |findings|
    ensures Flat(findings[..f + 1]) == Flat(findings[..f]) + findings[f]
  {
    assert findings[..f + 1][..f] == findings[..f];
  }

  class EvidenceIssuer {
    const w: World
    var items: seq<Item>

    constructor (w: World)
      ensures this.w == w && items == [] && AllGenuine(w, items)
    {
      this.w := w;
      items := [];
    }

    /** Find or create a handle. */
    method IssueItem(req: IssueRequest) returns (id: Option<nat>)
      requires AllGenuine(w, items)
      modifies this
      ensures Issued(items, id) == Issue(w, old(items), req) && AllGenuine(w, items) && old(items) <= items
      ensures id.Some? ==>
        && id.value < |items| && items[id.value].attempt == req.attempt && items[id.value].path == req.path
        && Some(Range(items[id.value].start, items[id.value].end, items[id.value].content))
        == Source(w, req.lineage.snapshot, req.path, req.start, req.end, req.maxBytes)
    {
      IssueKeepsGenuine(w, items, req);
      IssueExact(w, items, req);
      if req.attempt !in w.lineages || w.lineages[req.attempt] != req.lineage { return None; }
      var r := Source(w, req.lineage.snapshot, req.path, req.start, req.end, req.maxBytes);
      if r.None? { return None; }
      var existing := FindCanonical(items, req.attempt, req.lineage.snapshot, req.path, r.value);
      if existing.Some? { return existing; }
      id := Some(|items|);
      items := items + [Item(req.attempt, req.lineage, req.path, r.value.start, r.value.end, r.value.content,
                             w.redact(r.value.content))];
    }

    /** Carries the handles of a checkpointed draft into the attempt that replays it. */
    method RebindCheckpointDraft(draft: seq<seq<Ref>>, a: nat, b: nat, l: Lineage) returns (rebound: seq<seq<Ref>>)
      requires AllGenuine(w, items)
      modifies this
      ensures SameShape(draft, rebound) && AllGenuine(w, items)
      ensures if a == b then rebound == draft && items == old(items)
              else Rebound(items, Flat(rebound)) == Rebind(w, old(items), a, b, l, Flat(draft))
    {
      if a == b { return draft; }
      rebound := [];
      for f := 0 to |draft|
        invariant |rebound| == f && forall k | 0 <= k < f :: |rebound[k]| == |draft[k]|
        invariant AllGenuine(w, items)
        invariant Rebound(items, Flat(rebound)) == Rebind(w, old(items), a, b, l, Flat(draft[..f]))
      {
        var refs := RebindFinding(draft[f], a, b, l, old(items), Flat(draft[..f]));
        FlatNext(draft, f);
        FlatNext(rebound + [refs], f);
        assert (rebound + [refs])[..f] == rebound && (rebound + [refs])[..f + 1] == rebound + [refs];
        rebound := rebound + [refs];
      }
      assert draft[..|draft|] == draft;
    }

    /** One finding, after the citations in earlier were carried over. */
    method RebindFinding(finding: seq<Ref>, a: nat, b: nat, l: Lineage, ghost start: seq<Item>, ghost earlier: seq<Ref>)
      returns (refs: seq<Ref>)
      requires AllGenuine(w, items) && items == Rebind(w, start, a, b, l, earlier).items
      modifies this
      ensures AllGenuine(w, items) && |refs| == |finding|
      ensures Rebind(w, start, a, b, l, earlier + finding)
           == Rebound(items, Rebind(w, start, a, b, l, earlier).refs + refs)
    {
      hide Rebind, Issue, Genuine;
      refs := [];
      ghost var before := Rebind(w, start, a, b, l, earlier).refs;
      assert earlier + finding[..0] == earlier && before + refs == before;
      for c := 0 to |finding|
        invariant |refs| == c && AllGenuine(w, items)
        invariant Rebind(w, start, a, b, l, earlier + finding[..c]) == Rebound(items, before + refs)
      {
        var ref := finding[c];
        RebindNext(w, start, a, b, l, earlier + finding[..c], ref);
        assert earlier + finding[..c + 1] == earlier + finding[..c] + [ref];
        if ref.Handle? && ref.id < |items| && items[ref.id].attempt == a && items[ref.id].lineage == l {
          var i := items[ref.id];
          var reissued := IssueItem(IssueRequest(b, l, i.path, i.start, i.end, 0));
          if reissued.Some? { ref := ref.(id := reissued.value); }
        }
        assert before + (refs + [ref]) == before + refs + [ref];
        refs := refs + [ref];
      }
      assert finding[..|finding|] == finding;
    }

    /** The citations of one finding. */
    method ResolveFinding(finding: seq<Ref>, attempt: nat, l: Lineage) returns (citations: seq<Citation>)
      ensures citations == Resolved(w, items, attempt, l, finding)
      ensures forall k | 0 <= k < |finding| :: Cites(w, items, attempt, l, finding[k], citations[k])
    {
      hide Cites;
      citations := [];
      for c := 0 to |finding|
        invariant citations == Resolved(w, items, attempt, l, finding[..c])
        invariant forall k | 0 <= k < c :: Cites(w, items, attempt, l, finding[k], citations[k])
      {
        var ref := finding[c];
        var citation := Invalid(ref.reason, EvidenceIdEmpty);
        if ref.Forged? || (ref.Handle? && ref.id >= |items|) {
          citation := Invalid(ref.reason, EvidenceNotFound);
        } else if ref.Handle? {
          var i := items[ref.id];
          var bad := Verify(w, i, attempt, l);
          citation :=
            if bad.Some? then Invalid(ref.reason, bad.value)
            else Valid(ref.reason, i.path, i.start, i.end, i.content, i.excerpt);
        }
        ResolveCites(w, items, attempt, l, ref);
        citations := citations + [citation];
      }
      assert finding[..|finding|] == finding;
    }

    /** Turns model citations into server-owned citations; bad ones stay visible as invalid. */
    method ResolveReportDraft(draft: seq<seq<Ref>>, attempt: nat, l: Lineage) returns (report: seq<seq<Citation>>)
      ensures SameShape(draft, report) && Flat(report) == Resolved(w, items, attempt, l, Flat(draft))
      ensures forall f, k | 0 <= f < |draft| && 0 <= k < |draft[f]| ::
        && Cites(w, items, attempt, l, draft[f][k], report[f][k])
        && (AllGenuine(w, items) ==> Quotes(w, l, report[f][k]))
    {
      hide AllGenuine, Cites, Quotes, Resolve;
      report := [];
      for f := 0 to |draft|
        invariant |report| == f && forall k | 0 <= k < f :: |report[k]| == |draft[k]|
        invariant Flat(report) == Resolved(w, items, attempt, l, Flat(draft[..f]))
        invariant forall g, k | 0 <= g < f && 0 <= k < |draft[g]| ::
          Cites(w, items, attempt, l, draft[g][k], report[g][k])
      {
        var citations := ResolveFinding(draft[f], attempt, l);
        FlatNext(draft, f);
        FlatNext(report + [citations], f);
        assert (report + [citations])[..f] == report && (report + [citations])[..f + 1] == report + [citations];
        assert Flat(report) + citations == Resolved(w, items, attempt, l, Flat(draft[..f]) + draft[f]);
        report := report + [citations];
      }
      assert draft[..|draft|] == draft;
      if AllGenuine(w, items) {
        forall f, k | 0 <= f < |draft| && 0 <= k < |draft[f]| ensures Quotes(w, l, report[f][k]) {
          CitesQuotes(w, items, attempt, l, draft[f][k], report[f][k]);
        }
      }
    }
  }
}
