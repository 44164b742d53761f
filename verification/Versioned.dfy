/**
 Optimistically updated resources with a version history, for any fields and any
 patches (versioning.py and its two users).
 */
module Versioned {
  import opened Prelude

  datatype Snapshot<F> = Snapshot(version: nat, fields: F)

  /** A row and its rows in the version table. */
  datatype Resource<F> = Resource(fields: F, version: nat, archived: bool, snapshots: seq<Snapshot<F>>)

  datatype Request<P> = Put(version: int, patch: P) | Archive

  /** What a patch makes of the fields; None when it is refused. */
  type Patcher<!F, !P> = (F, P) -> Option<F>

  function Create<F>(fields: F): Resource<F> {
    Resource(fields, 1, false, [Snapshot(1, fields)])
  }

  /** The fields a PUT leaves, when it passes the checks. */
  function Patched<F, P>(apply: Patcher<F, P>, r: Resource<F>, version: int, patch: P): Option<F> {
    if r.archived || version != r.version then None else apply(r.fields, patch)
  }

  function Step<F(==), P>(apply: Patcher<F, P>, r: Resource<F>, req: Request<P>): Resource<F> {
    match req
    case Archive => r.(archived := true)
    case Put(version, patch) =>
      var fields := Patched(apply, r, version, patch);
      if fields.None? then r else Stored(r, fields.value)
  }

  /** New fields get the next version and a snapshot; unchanged ones get neither. */
  function Stored<F(==)>(r: Resource<F>, fields: F): Resource<F> {
    if fields == r.fields then r
    else r.(fields := fields, version := r.version + 1, snapshots := r.snapshots + [Snapshot(r.version + 1, fields)])
  }

  /** All clients' requests in the order the row lock admits them. */
  function Run<F(==), P>(apply: Patcher<F, P>, r: Resource<F>, reqs: seq<Request<P>>): Resource<F>
    decreases |reqs|
  {
    if reqs == [] then r else Run(apply, Step(apply, r, reqs[0]), reqs[1..])
  }

  /** The requests that changed the fields, in order. */
  function Accepted<F(==), P>(apply: Patcher<F, P>, r: Resource<F>, reqs: seq<Request<P>>): seq<Request<P>>
    decreases |reqs|
  {
    if reqs == [] then []
    else
      var next := Step(apply, r, reqs[0]);
      (if next.fields == r.fields then [] else [reqs[0]]) + Accepted(apply, next, reqs[1..])
  }

  /** Snapshots are exactly the versions 1 to the current one, and the last is the current row. */
  ghost predicate HistoryAgrees<F>(r: Resource<F>) {
    && r.version >= 1 && |r.snapshots| == r.version
    && (forall i | 0 <= i < |r.snapshots| :: r.snapshots[i].version == i + 1)
    && r.snapshots[r.version - 1].fields == r.fields
  }

  lemma StepKeepsHistory<F, P>(apply: Patcher<F, P>, r: Resource<F>, req: Request<P>)
    requires HistoryAgrees(r)
    ensures var next := Step(apply, r, req);
            && HistoryAgrees(next)
            && r.snapshots <= next.snapshots
            && next.version == (if next.fields == r.fields then r.version else r.version + 1)
            && (next.fields != r.fields ==>
                  && req.Put? && req.version == r.version && !r.archived
                  && apply(r.fields, req.patch) == Some(next.fields))
  {
  }

  /** The k-th accepted request named version v + k, and made the next snapshot out of the one it named. */
  ghost predicate Linear<F, P>(apply: Patcher<F, P>, start: nat, snapshots: seq<Snapshot<F>>,
      accepted: seq<Request<P>>) {
    && start >= 1 && |snapshots| == start + |accepted|
    && forall k | 0 <= k < |accepted| ::
         && accepted[k].Put? && accepted[k].version == start + k
         && apply(snapshots[start + k - 1].fields, accepted[k].patch) == Some(snapshots[start + k].fields)
         && snapshots[start + k].fields != snapshots[start + k - 1].fields
  }

  lemma {:induction false} RunIsLinear<F, P>(apply: Patcher<F, P>, r: Resource<F>, reqs: seq<Request<P>>)
    requires HistoryAgrees(r)
    ensures var end, accepted := Run(apply, r, reqs), Accepted(apply, r, reqs);
            && HistoryAgrees(end) && r.snapshots <= end.snapshots
            && Linear(apply, r.version, end.snapshots, accepted)
    decreases |reqs|
  {
    if reqs != [] {
      var next := Step(apply, r, reqs[0]);
      StepKeepsHistory(apply, r, reqs[0]);
      RunIsLinear(apply, next, reqs[1..]);
      StepIsLinear(apply, r, reqs[0], Run(apply, r, reqs).snapshots, Accepted(apply, next, reqs[1..]));
    }
  }

  lemma StepIsLinear<F, P>(apply: Patcher<F, P>, r: Resource<F>, req: Request<P>, snapshots: seq<Snapshot<F>>,
      rest: seq<Request<P>>)
    requires HistoryAgrees(r)
    requires Step(apply, r, req).snapshots <= snapshots
    requires Linear(apply, Step(apply, r, req).version, snapshots, rest)
    ensures r.snapshots <= snapshots
    ensures Linear(apply, r.version, snapshots, (if Step(apply, r, req).fields == r.fields then [] else [req]) + rest)
  {
    var next := Step(apply, r, req);
    StepKeepsHistory(apply, r, req);
    if next.fields == r.fields {
      assert [] + rest == rest;
    } else {
      assert snapshots[r.version - 1] == r.snapshots[r.version - 1]
             && snapshots[r.version] == next.snapshots[r.version];
      LinearFirst(apply, r.version, snapshots, req, rest);
    }
  }

  lemma LinearFirst<F, P>(apply: Patcher<F, P>, start: nat, snapshots: seq<Snapshot<F>>, first: Request<P>,
      rest: seq<Request<P>>)
    requires start >= 1 && Linear(apply, start + 1, snapshots, rest)
    requires first.Put? && first.version == start
    requires apply(snapshots[start - 1].fields, first.patch) == Some(snapshots[start].fields)
    requires snapshots[start].fields != snapshots[start - 1].fields
    ensures Linear(apply, start, snapshots, [first] + rest)
  {
    var all := [first] + rest;
    forall k | 0 <= k < |all|
      ensures all[k].Put? && all[k].version == start + k
      ensures apply(snapshots[start + k - 1].fields, all[k].patch) == Some(snapshots[start + k].fields)
      ensures snapshots[start + k].fields != snapshots[start + k - 1].fields
    {
      if k > 0 {
        assert all[k] == rest[k - 1];
      }
    }
  }

  /** The one-at-a-time reading: patches applied one after another, nothing checked. */
  function FoldPatches<F, P>(apply: Patcher<F, P>, fields: F, accepted: seq<Request<P>>): Option<F>
    decreases |accepted|
  {
    if accepted == [] then Some(fields)
    else if accepted[0].Archive? then FoldPatches(apply, fields, accepted[1..])
    else
      var next := apply(fields, accepted[0].patch);
      if next.None? then None else FoldPatches(apply, next.value, accepted[1..])
  }

  lemma {:induction false} RunIsFold<F, P>(apply: Patcher<F, P>, r: Resource<F>, reqs: seq<Request<P>>)
    requires HistoryAgrees(r)
    ensures FoldPatches(apply, r.fields, Accepted(apply, r, reqs)) == Some(Run(apply, r, reqs).fields)
    decreases |reqs|
  {
    if reqs != [] {
      var next := Step(apply, r, reqs[0]);
      var rest := Accepted(apply, next, reqs[1..]);
      StepKeepsHistory(apply, r, reqs[0]);
      RunIsFold(apply, next, reqs[1..]);
      if next.fields == r.fields {
        assert [] + rest == rest;
      } else {
        assert ([reqs[0]] + rest)[1..] == rest;
      }
    }
  }

  /**
   Any interleaving of clients is one line of updates: the versions are 1 to n
   without a gap, the last is the current row, each later one was made by the
   one accepted request that named the version before it, and the current row
   is the fold of the accepted patches.
   */
  lemma {:induction false} UpdatesLinearize<F, P>(apply: Patcher<F, P>, fields: F, reqs: seq<Request<P>>)
    ensures var end, accepted := Run(apply, Create(fields), reqs), Accepted(apply, Create(fields), reqs);
            && HistoryAgrees(end)
            && end.snapshots[0].fields == fields
            && Linear(apply, 1, end.snapshots, accepted)
            && FoldPatches(apply, fields, accepted) == Some(end.fields)
  {
    RunIsLinear(apply, Create(fields), reqs);
    RunIsFold(apply, Create(fields), reqs);
  }

  /** No update is lost: two accepted requests never named the same version. */
  lemma {:induction false} NoLostUpdate<F, P>(apply: Patcher<F, P>, fields: F, reqs: seq<Request<P>>, i: nat, j: nat)
    requires i < j < |Accepted(apply, Create(fields), reqs)|
    ensures var accepted := Accepted(apply, Create(fields), reqs);
            && accepted[i].Put? && accepted[j].Put? && accepted[i].version < accepted[j].version
  {
    UpdatesLinearize(apply, fields, reqs);
  }

  /** The request is let through: the row is not archived, the version is the current one, the patch is not refused. */
  predicate Passes<F, P>(apply: Patcher<F, P>, r: Resource<F>, req: Request<P>) {
    req.Put? && !r.archived && req.version == r.version && apply(r.fields, req.patch).Some?
  }

  /** What passes takes effect, in full; what does not changes no field; an archival archives and does nothing else. */
  lemma TakesEffect<F, P>(apply: Patcher<F, P>, r: Resource<F>, req: Request<P>)
    ensures var next := Step(apply, r, req);
            && (Passes(apply, r, req) ==> Some(next.fields) == apply(r.fields, req.patch))
            && (!Passes(apply, r, req) ==> next.fields == r.fields && next.version == r.version)
            && (next.archived <==> r.archived || req.Archive?)
  {
  }

  function Passed<F(==), P>(apply: Patcher<F, P>, r: Resource<F>, reqs: seq<Request<P>>): seq<P>
    decreases |reqs|
  {
    if reqs == [] then []
    else
      (if Passes(apply, r, reqs[0]) then [reqs[0].patch] else []) + Passed(apply, Step(apply, r, reqs[0]), reqs[1..])
  }

  /** A field on its own: a patch gives it a value or leaves it alone. */
  ghost predicate SetsField<F(!new), P(!new), T>(apply: Patcher<F, P>, get: F -> T, given: P -> Option<T>) {
    forall f, p | apply(f, p).Some? :: get(apply(f, p).value) == Or(given(p), get(f))
  }

  function LastGiven<P, T>(given: P -> Option<T>, first: T, patches: seq<P>): T
    decreases |patches|
  {
    if patches == [] then first
    else LastGiven(given, if given(patches[0]).Some? then given(patches[0]).value else first, patches[1..])
  }

  /** After any requests the field is what the last one let through that gave it gave, else what it was. */
  lemma {:induction false} FieldIsLastGiven<F(!new), P(!new), T>(
    apply: Patcher<F, P>, get: F -> T, given: P -> Option<T>, r: Resource<F>, reqs: seq<Request<P>>)
    requires SetsField(apply, get, given)
    ensures get(Run(apply, r, reqs).fields) == LastGiven(given, get(r.fields), Passed(apply, r, reqs))
    decreases |reqs|
  {
    if reqs != [] {
      var next := Step(apply, r, reqs[0]);
      var rest := Passed(apply, next, reqs[1..]);
      TakesEffect(apply, r, reqs[0]);
      FieldIsLastGiven(apply, get, given, next, reqs[1..]);
      if Passes(apply, r, reqs[0]) {
        FirstAndRest(reqs[0].patch, rest);
      } else {
        assert [] + rest == rest;
      }
    }
  }

  /** An archived resource never changes again. */
  lemma {:induction false} ArchivedIsFinal<F, P>(apply: Patcher<F, P>, r: Resource<F>, reqs: seq<Request<P>>)
    requires r.archived
    ensures Run(apply, r, reqs) == r
    decreases |reqs|
  {
    if reqs != [] {
      assert Step(apply, r, reqs[0]) == r;
      ArchivedIsFinal(apply, r, reqs[1..]);
    }
  }
}
