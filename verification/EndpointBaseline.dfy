/** Comparing two captured baselines of the external endpoints. */
module EndpointBaseline {
  import opened ExecutorTypes

  datatype Tls = Tls(issuer: string, subject: string, san: seq<string>, fingerprint: string)

  datatype Endpoint = Endpoint(hostname: string, tls: Option<Tls>, a: seq<string>, aaaa: seq<string>, ns: seq<string>)

  /** A file's endpoints by id, with the ids in file order. */
  datatype Baseline = Baseline(ids: seq<string>, endpoints: map<string, Endpoint>)
  {
    ghost predicate Valid() {
      forall id :: id in ids <==> id in endpoints
    }
  }

  datatype Line =
    | Added(id: string, hostname: string)
    | FingerprintChanged(id: string)
    | OldFingerprint(fingerprint: Option<string>)
    | NewFingerprint(fingerprint: Option<string>)
    | IssuerChanged(id: string, oldIssuer: Option<string>, newIssuer: Option<string>)
    | AChanged(id: string, oldRecords: seq<string>, newRecords: seq<string>)
    | NsChanged(id: string, oldRecords: seq<string>, newRecords: seq<string>)
    | Removed(id: string)

  function Fingerprint(e: Endpoint): Option<string> {
    if e.tls.Some? then Some(e.tls.value.fingerprint) else None
  }

  function Issuer(e: Endpoint): Option<string> {
    if e.tls.Some? then Some(e.tls.value.issuer) else None
  }

  /** The fields that are compared; AAAA records, alternative names and the subject are not. */
  predicate Agree(x: Endpoint, y: Endpoint) {
    Fingerprint(x) == Fingerprint(y) && Issuer(x) == Issuer(y) && x.a == y.a && x.ns == y.ns
  }

  function When(condition: bool, lines: seq<Line>): (r: seq<Line>)
    ensures r == if condition then lines else []
  {
    if condition then lines else []
  }

  /** What one endpoint present in both files contributes. */
  function Changes(id: string, x: Endpoint, y: Endpoint): seq<Line> {
    When(Fingerprint(x) != Fingerprint(y),
        [FingerprintChanged(id), OldFingerprint(Fingerprint(x)), NewFingerprint(Fingerprint(y))])
    + When(Issuer(x) != Issuer(y), [IssuerChanged(id, Issuer(x), Issuer(y))])
    + When(x.a != y.a, [AChanged(id, x.a, y.a)])
    + When(x.ns != y.ns, [NsChanged(id, x.ns, y.ns)])
  }

  lemma ChangesIn(id: string, x: Endpoint, y: Endpoint, line: Line)
    ensures line in Changes(id, x, y) <==>
      || (Fingerprint(x) != Fingerprint(y)
          && (line == FingerprintChanged(id) || line == OldFingerprint(Fingerprint(x))
              || line == NewFingerprint(Fingerprint(y))))
      || (Issuer(x) != Issuer(y) && line == IssuerChanged(id, Issuer(x), Issuer(y)))
      || (x.a != y.a && line == AChanged(id, x.a, y.a))
      || (x.ns != y.ns && line == NsChanged(id, x.ns, y.ns))
  {
    hide Fingerprint, Issuer;
    var fingerprints :=
        When(Fingerprint(x) != Fingerprint(y),
            [FingerprintChanged(id), OldFingerprint(Fingerprint(x)), NewFingerprint(Fingerprint(y))]);
    var issuers := When(Issuer(x) != Issuer(y), [IssuerChanged(id, Issuer(x), Issuer(y))]);
    var records := When(x.a != y.a, [AChanged(id, x.a, y.a)]);
    var servers := When(x.ns != y.ns, [NsChanged(id, x.ns, y.ns)]);
    assert line in Changes(id, x, y) <==> line in fingerprints || line in issuers || line in records || line in servers;
  }

  /** Exactly the differing fields are reported, and nothing about ids that come or go. */
  lemma ChangesAreTheDifferences(id: string, x: Endpoint, y: Endpoint)
    ensures Changes(id, x, y) == [] <==> Agree(x, y)
    ensures FingerprintChanged(id) in Changes(id, x, y) <==> Fingerprint(x) != Fingerprint(y)
    ensures IssuerChanged(id, Issuer(x), Issuer(y)) in Changes(id, x, y) <==> Issuer(x) != Issuer(y)
    ensures AChanged(id, x.a, y.a) in Changes(id, x, y) <==> x.a != y.a
    ensures NsChanged(id, x.ns, y.ns) in Changes(id, x, y) <==> x.ns != y.ns
    ensures forall line :: line in Changes(id, x, y) ==> !line.Added? && !line.Removed?
  {
    hide Changes, Fingerprint, Issuer;
    forall line
      ensures line in Changes(id, x, y) ==> !line.Added? && !line.Removed?
    {
      ChangesIn(id, x, y, line);
    }
    ChangesIn(id, x, y, FingerprintChanged(id));
    ChangesIn(id, x, y, IssuerChanged(id, Issuer(x), Issuer(y)));
    ChangesIn(id, x, y, AChanged(id, x.a, y.a));
    ChangesIn(id, x, y, NsChanged(id, x.ns, y.ns));
    NoChanges(id, x, y);
  }

  lemma NoChanges(id: string, x: Endpoint, y: Endpoint)
    ensures Changes(id, x, y) == [] <==> Agree(x, y)
  {
    hide Fingerprint, Issuer;
  }

  /** What an id of the newer file contributes. */
  function LinesFor(before: Baseline, after: Baseline, id: string): seq<Line>
    requires id in after.endpoints
  {
    if id !in before.endpoints then [Added(id, after.endpoints[id].hostname)]
    else Changes(id, before.endpoints[id], after.endpoints[id])
  }

  ghost predicate Same(before: Baseline, after: Baseline) {
    && (forall id :: id in before.endpoints <==> id in after.endpoints)
    && forall id :: id in after.endpoints && id in before.endpoints ==> Agree(before.endpoints[id], after.endpoints[id])
  }

  /** The report of the first `n` ids of the newer file. */
  function Report(before: Baseline, after: Baseline, n: nat): seq<Line>
    requires after.Valid() && n <= |after.ids|
  {
    if n == 0 then [] else Report(before, after, n - 1) + LinesFor(before, after, after.ids[n - 1])
  }

  function RemovedLines(before: Baseline, after: Baseline, n: nat): seq<Line>
    requires n <= |before.ids|
  {
    if n == 0 then []
    else
      RemovedLines(before, after, n - 1)
      + if before.ids[n - 1] in after.endpoints then [] else [Removed(before.ids[n - 1])]
  }

  method PushChanges(diffs0: seq<Line>, id: string, x: Endpoint, y: Endpoint) returns (diffs: seq<Line>)
    ensures diffs == diffs0 + Changes(id, x, y)
  {
    hide Fingerprint, Issuer;
    diffs := diffs0;
    if Fingerprint(x) != Fingerprint(y) {
      diffs := diffs + [FingerprintChanged(id), OldFingerprint(Fingerprint(x)), NewFingerprint(Fingerprint(y))];
    }
    assert diffs
        == diffs0
            + When(Fingerprint(x) != Fingerprint(y),
                [FingerprintChanged(id), OldFingerprint(Fingerprint(x)), NewFingerprint(Fingerprint(y))]);
    if Issuer(x) != Issuer(y) {
      diffs := diffs + [IssuerChanged(id, Issuer(x), Issuer(y))];
    }
    if x.a != y.a {
      diffs := diffs + [AChanged(id, x.a, y.a)];
    }
    if x.ns != y.ns {
      diffs := diffs + [NsChanged(id, x.ns, y.ns)];
    }
  }

  method DiffBaselines(before: Baseline, after: Baseline) returns (diffs: seq<Line>)
    requires before.Valid() && after.Valid()
    ensures diffs == Report(before, after, |after.ids|) + RemovedLines(before, after, |before.ids|)
  {
    hide Changes;
    diffs := [];
    for i := 0 to |after.ids|
      invariant diffs == Report(before, after, i)
    {
      var id := after.ids[i];
      if id !in before.endpoints {
        diffs := diffs + [Added(id, after.endpoints[id].hostname)];
        continue;
      }
      diffs := PushChanges(diffs, id, before.endpoints[id], after.endpoints[id]);
    }
    for i := 0 to |before.ids|
      invariant diffs == Report(before, after, |after.ids|) + RemovedLines(before, after, i)
    {
      if before.ids[i] !in after.endpoints {
        diffs := diffs + [Removed(before.ids[i])];
      }
    }
  }

  lemma {:induction false} ReportLines(before: Baseline, after: Baseline, n: nat, line: Line)
    requires after.Valid() && n <= |after.ids|
    ensures line in Report(before, after, n)
        <==> exists j :: 0 <= j < n && line in LinesFor(before, after, after.ids[j])
    ensures Report(before, after, n) == [] <==> forall j :: 0 <= j < n ==> LinesFor(before, after, after.ids[j]) == []
  {
    hide LinesFor;
    if n > 0 {
      ReportLines(before, after, n - 1, line);
    }
  }

  lemma {:induction false} RemovedReported(before: Baseline, after: Baseline, n: nat, line: Line)
    requires n <= |before.ids|
    ensures line in RemovedLines(before, after, n)
       <==> line.Removed? && line.id !in after.endpoints && exists j :: 0 <= j < n && before.ids[j] == line.id
    ensures RemovedLines(before, after, n) == [] <==> forall j :: 0 <= j < n ==> before.ids[j] in after.endpoints
  {
    if n > 0 {
      RemovedReported(before, after, n - 1, line);
    }
  }

  /** The report is empty exactly for baselines that agree on their ids and, id by id, on every compared field. */
  lemma EmptyReportMeansSame(before: Baseline, after: Baseline)
    requires before.Valid() && after.Valid()
    ensures Report(before, after, |after.ids|) + RemovedLines(before, after, |before.ids|) == []
        <==> Same(before, after)
  {
    hide Agree, Changes, Report, RemovedLines, LinesFor;
    ReportLines(before, after, |after.ids|, Removed(""));
    RemovedReported(before, after, |before.ids|, Removed(""));
    forall id | id in after.endpoints
      ensures LinesFor(before, after, id) == []
          <==> id in before.endpoints && Agree(before.endpoints[id], after.endpoints[id])
    {
      LinesForEmpty(before, after, id);
    }
    assert forall id :: id in after.endpoints ==> exists j :: 0 <= j < |after.ids| && after.ids[j] == id;
    assert forall id :: id in before.endpoints ==> exists j :: 0 <= j < |before.ids| && before.ids[j] == id;
  }

  lemma LinesForEmpty(before: Baseline, after: Baseline, id: string)
    requires id in after.endpoints
    ensures LinesFor(before, after, id) == []
        <==> id in before.endpoints && Agree(before.endpoints[id], after.endpoints[id])
  {
    hide Agree, Changes;
    if id in before.endpoints {
      NoChanges(id, before.endpoints[id], after.endpoints[id]);
    }
  }

  lemma LinesForNames(before: Baseline, after: Baseline, id: string, line: Line)
    requires id in after.endpoints && (line.Added? || line.Removed?)
    ensures line in LinesFor(before, after, id)
        <==> id !in before.endpoints && line == Added(id, after.endpoints[id].hostname)
  {
    hide Changes;
    if id in before.endpoints {
      ChangesAreTheDifferences(id, before.endpoints[id], after.endpoints[id]);
    }
  }

  /** Every added or removed id yields its own line, and no line of that kind is made up. */
  lemma AddedAndRemovedAreNamed(before: Baseline, after: Baseline, id: string, hostname: string)
    requires before.Valid() && after.Valid()
    ensures
      var diffs := Report(before, after, |after.ids|) + RemovedLines(before, after, |before.ids|);
      && (Added(id, hostname) in diffs
          <==> id in after.endpoints && id !in before.endpoints && hostname == after.endpoints[id].hostname)
      && (Removed(id) in diffs <==> id in before.endpoints && id !in after.endpoints)
  {
    hide LinesFor, Report, RemovedLines;
    forall other, line | other in after.endpoints && (line == Added(id, hostname) || line == Removed(id))
      ensures line in LinesFor(before, after, other)
          <==> other !in before.endpoints && line == Added(other, after.endpoints[other].hostname)
    {
      LinesForNames(before, after, other, line);
    }
    ReportLines(before, after, |after.ids|, Added(id, hostname));
    ReportLines(before, after, |after.ids|, Removed(id));
    RemovedReported(before, after, |before.ids|, Added(id, hostname));
    RemovedReported(before, after, |before.ids|, Removed(id));
    assert id in after.endpoints ==> exists j :: 0 <= j < |after.ids| && after.ids[j] == id;
    assert id in before.endpoints ==> exists j :: 0 <= j < |before.ids| && before.ids[j] == id;
  }
}
