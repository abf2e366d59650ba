/** The versioned automation editor (modules/automation/editor-service.js). */
module AutomationEditor {
  import opened Wrappers
  import opened Ordering
  import opened JsonValue
  import opened GraphSchema
  import opened GraphValidator

  datatype Status = Editable | Published

  datatype Draft = Draft(id: string, tenantId: string, name: string, graph: Graph, revision: nat, status: Status, fingerprint: string)

  datatype Version = Version(id: string, tenantId: string, name: string, graph: Graph, revision: nat, version: nat,
                             restoredFrom: Option<int>, fingerprint: string)

  datatype Reference = Reference(automationId: string, version: nat, fingerprint: string)

  datatype EditorError = NotFound | DraftNotEditable | RevisionConflict | GraphRejected | VersionNotFound | PublishedVersionRequired

  datatype Outcome<T> = Done(value: T) | Failed(error: EditorError)

  function NoReferences(tenantId: string): Options { Options(tenantId, Option.None) }

  /** A graph the editor has accepted for a tenant. */
  ghost predicate Accepted(graph: Graph, tenantId: string, lt: Collation) {
    Normal(graph, lt) && ValidGraph(graph, NoReferences(tenantId))
  }

  /**
   * What every run keeps about one draft and its history. Once anything is published the draft no longer
   * changes, so every version carries the same name, graph and fingerprint, numbered 1, 2, ...
   */
  ghost predicate Consistent(id: string, d: Draft, history: seq<Version>, lt: Collation, digest: Graph -> string) {
    && d.id == id
    && Accepted(d.graph, d.tenantId, lt)
    && d.fingerprint == digest(d.graph)
    && (d.status == Editable <==> history == [])
    && (history != [] ==> d.revision == history[|history| - 1].revision)
    && forall i | 0 <= i < |history| ::
         && history[i].version == i + 1
         && history[i].id == id
         && history[i].tenantId == d.tenantId
         && history[i].name == d.name
         && history[i].graph == d.graph
         && history[i].fingerprint == d.fingerprint
         && history[i].revision == history[0].revision + i
  }

  lemma {:induction false} AcceptedNow(value: Json, tenantId: string, lt: Collation)
    requires Wf(value) && NormalizeGraph(value, lt).Ok? && ValidGraph(NormalizeGraph(value, lt).value, NoReferences(tenantId))
    ensures Accepted(NormalizeGraph(value, lt).value, tenantId, lt)
  {
    NormalizeGraphNormal(value, lt);
  }

  lemma AcceptedPorts(graph: Graph, tenantId: string, lt: Collation)
    requires Accepted(graph, tenantId, lt)
    ensures NoEmptyPort(graph)
  {
    forall e | e in graph.edges ensures e.port != "" {
      assert LegalEdge(graph, e);
    }
  }

  /** Normalising an accepted graph again gives it back, so it is accepted again and hashes the same. */
  lemma {:induction false} AcceptedAgain(graph: Graph, tenantId: string, lt: Collation, digest: Graph -> string)
    requires Accepted(graph, tenantId, lt)
    ensures NormalizeGraph(GraphValue(graph), lt) == Ok(graph) && ValidGraph(graph, NoReferences(tenantId))
    ensures CanonicalGraphHash(GraphValue(graph), lt, digest) == Ok(digest(graph))
  {
    AcceptedPorts(graph, tenantId, lt);
    NormalizeIdempotent(graph, lt);
    hide NormalizeGraph, Normal, ValidGraph, GraphValue;
  }

  /** What a draft's own record says about its history. */
  lemma ConsistentParts(id: string, d: Draft, history: seq<Version>, lt: Collation, digest: Graph -> string)
    requires Consistent(id, d, history, lt, digest)
    ensures Accepted(d.graph, d.tenantId, lt) && d.fingerprint == digest(d.graph) && d.id == id
    ensures d.status == Editable <==> history == []
    ensures forall i | 0 <= i < |history| ::
              history[i].version == i + 1 && history[i].graph == d.graph && history[i].fingerprint == d.fingerprint
              && history[i].tenantId == d.tenantId && history[i].name == d.name
  {
    hide Accepted;
  }

  lemma ConsistentEditable(d: Draft, lt: Collation, digest: Graph -> string)
    requires Accepted(d.graph, d.tenantId, lt) && d.fingerprint == digest(d.graph) && d.status == Editable
    ensures Consistent(d.id, d, [], lt, digest)
  {
    hide Accepted;
  }

  lemma ConsistentPublished(d: Draft, lt: Collation, digest: Graph -> string)
    requires Consistent(d.id, d, [], lt, digest)
    ensures Consistent(d.id, d.(status := Published),
              [Version(d.id, d.tenantId, d.name, d.graph, d.revision, 1, Option.None, d.fingerprint)], lt, digest)
  {
    hide Accepted;
  }

  lemma ConsistentRestored(d: Draft, history: seq<Version>, source: int, lt: Collation, digest: Graph -> string)
    requires Consistent(d.id, d, history, lt, digest) && history != []
    ensures Consistent(d.id, d.(revision := d.revision + 1),
              history + [Version(d.id, d.tenantId, d.name, d.graph, d.revision + 1, |history| + 1, Option.Some(source), d.fingerprint)],
              lt, digest)
  {
    hide Accepted;
    var n := |history| - 1;
    assert history[n].revision == history[0].revision + n;
  }

  /** The fingerprint as the editor computes it: the graph is normalised once more before hashing. */
  function Fingerprint(graph: Graph, lt: Collation, digest: Graph -> string): string {
    match CanonicalGraphHash(GraphValue(graph), lt, digest)
    case Ok(h) => h
    case Err(_) => ""
  }

  /** `history.find(item => item.version === version)`. */
  function FindVersion(history: seq<Version>, version: int): Option<Version> {
    if history == [] then Option.None
    else if history[0].version == version then Option.Some(history[0])
    else FindVersion(history[1..], version)
  }

  lemma {:induction false} FindNumbered(history: seq<Version>, version: int, start: nat)
    requires forall i | 0 <= i < |history| :: history[i].version == start + i + 1
    ensures FindVersion(history, version) ==
            if start < version <= start + |history| then Option.Some(history[version - start - 1]) else Option.None
  {
    if history != [] {
      FindNumbered(history[1..], version, start + 1);
    }
  }

  /** All drafts with their histories. */
  datatype Shelf = Shelf(drafts: map<string, Draft>, versions: map<string, seq<Version>>)

  ghost predicate ValidShelf(s: Shelf, lt: Collation, digest: Graph -> string) {
    && s.versions.Keys == s.drafts.Keys
    && forall id | id in s.drafts :: Consistent(id, s.drafts[id], s.versions[id], lt, digest)
  }

  /** All versions of one automation carry one graph and its hash, under the numbers 1, 2, ... */
  lemma OneGraphPerHistory(s: Shelf, id: string, i: nat, lt: Collation, digest: Graph -> string)
    requires ValidShelf(s, lt, digest) && id in s.drafts && i < |s.versions[id]|
    ensures var v := s.versions[id][i];
      && v.version == i + 1 && v.graph == s.versions[id][0].graph == s.drafts[id].graph
      && v.fingerprint == digest(v.graph) && s.drafts[id].status == Published
      && CanonicalGraphHash(GraphValue(v.graph), lt, digest) == Ok(v.fingerprint)
      && ValidGraph(v.graph, NoReferences(v.tenantId))
  {
    hide *;
    ShelfAt(s, id, lt, digest);
    ConsistentParts(id, s.drafts[id], s.versions[id], lt, digest);
    AcceptedAgain(s.drafts[id].graph, s.drafts[id].tenantId, lt, digest);
  }

  /** No history loses or changes an entry. */
  ghost predicate OnlyAppends(before: Shelf, after: Shelf) {
    before.versions.Keys <= after.versions.Keys && forall id | id in before.versions :: before.versions[id] <= after.versions[id]
  }

  /** Writing one consistent draft whose history extends the old one keeps the whole shelf. */
  lemma PutKeeps(s: Shelf, id: string, d: Draft, history: seq<Version>, lt: Collation, digest: Graph -> string)
    requires ValidShelf(s, lt, digest) && Consistent(id, d, history, lt, digest)
    requires id in s.versions ==> s.versions[id] <= history
    ensures ValidShelf(Shelf(s.drafts[id := d], s.versions[id := history]), lt, digest)
    ensures OnlyAppends(s, Shelf(s.drafts[id := d], s.versions[id := history]))
  {
    hide Consistent;
  }

  lemma ShelfAt(s: Shelf, id: string, lt: Collation, digest: Graph -> string)
    requires ValidShelf(s, lt, digest) && id in s.drafts
    ensures id in s.versions && Consistent(id, s.drafts[id], s.versions[id], lt, digest)
  {
    hide Consistent;
  }

  lemma ShelfKeys(s: Shelf, lt: Collation, digest: Graph -> string)
    requires ValidShelf(s, lt, digest)
    ensures s.versions.Keys == s.drafts.Keys
  {
    hide Consistent;
  }

  lemma AppendsNothing(s: Shelf)
    ensures OnlyAppends(s, s)
  {
  }

  class Editor {
    const lt: Collation
    const digest: Graph -> string
    var drafts: map<string, Draft>
    var versions: map<string, seq<Version>>

    ghost function Contents(): Shelf
      reads this
    {
      Shelf(drafts, versions)
    }

    ghost predicate Valid()
      reads this
    {
      ValidShelf(Contents(), lt, digest)
    }

    constructor (lt: Collation, digest: Graph -> string)
      ensures Valid() && drafts == map[] && this.lt == lt && this.digest == digest
    {
      this.lt, this.digest := lt, digest;
      drafts, versions := map[], map[];
    }

    predicate Owns(tenantId: string, id: string)
      reads this
    {
      id in drafts && drafts[id].tenantId == tenantId
    }

    /** `freshId` stands for a random UUID. */
    method CreateDraft(tenantId: string, name: string, value: Json, freshId: string) returns (r: Outcome<Draft>)
      requires Valid() && Wf(value) && freshId !in drafts
      modifies this
      ensures Valid() && OnlyAppends(old(Contents()), Contents())
      ensures r.Done? <==> NormalizeGraph(value, lt).Ok? && ValidGraph(NormalizeGraph(value, lt).value, NoReferences(tenantId))
      ensures r.Failed? ==> r.error == GraphRejected && unchanged(this)
      ensures r.Done? ==>
                && r.value.graph == NormalizeGraph(value, lt).value
                && r.value == Draft(freshId, tenantId, name, r.value.graph, 1, Editable, digest(r.value.graph))
                && drafts == old(drafts)[freshId := r.value] && versions == old(versions)[freshId := []]
    {
      hide NormalizeGraph, CanonicalGraphHash, Accepted, Consistent, ErrorsExact, ValidGraph, GraphValue, ValidShelf, OnlyAppends;
      AppendsNothing(Contents());
      var validation := ValidateGraph(value, NoReferences(tenantId), lt);
      if !validation.valid { return Failed(GraphRejected); }
      var graph := validation.graph.value;
      AcceptedNow(value, tenantId, lt);
      AcceptedAgain(graph, tenantId, lt, digest);
      var draft := Draft(freshId, tenantId, name, graph, 1, Editable, Fingerprint(graph, lt, digest));
      ConsistentEditable(draft, lt, digest);
      ShelfKeys(Contents(), lt, digest);
      PutKeeps(Contents(), freshId, draft, [], lt, digest);
      drafts := drafts[freshId := draft];
      versions := versions[freshId := []];
      return Done(draft);
    }

    /** Compare-and-swap on the revision; a published draft is never written again. */
    method SaveDraft(tenantId: string, id: string, expectedRevision: int, value: Json, name: Option<string>) returns (r: Outcome<Draft>)
      requires Valid() && Wf(value)
      modifies this
      ensures Valid() && OnlyAppends(old(Contents()), Contents()) && versions == old(versions)
      ensures r.Failed? ==> unchanged(this)
      ensures !old(Owns(tenantId, id)) ==> r == Failed(NotFound)
      ensures old(Owns(tenantId, id)) && old(versions[id]) != [] ==> r == Failed(DraftNotEditable)
      ensures old(Owns(tenantId, id)) && old(versions[id]) == [] && old(drafts[id]).revision != expectedRevision ==>
                r == Failed(RevisionConflict)
      ensures old(Owns(tenantId, id)) && old(versions[id]) == [] && old(drafts[id]).revision == expectedRevision ==>
                && (r.Done? <==> NormalizeGraph(value, lt).Ok? && ValidGraph(NormalizeGraph(value, lt).value, NoReferences(tenantId)))
                && (r.Failed? ==> r.error == GraphRejected)
      ensures r.Done? ==>
                && r.value.graph == NormalizeGraph(value, lt).value
                && r.value == old(drafts[id]).(graph := r.value.graph, revision := expectedRevision + 1,
                                               name := if name.Some? then name.value else old(drafts[id]).name,
                                               fingerprint := digest(r.value.graph))
                && drafts == old(drafts)[id := r.value]
    {
      hide NormalizeGraph, CanonicalGraphHash, Accepted, Consistent, ErrorsExact, ValidGraph, GraphValue, ValidShelf, OnlyAppends;
      AppendsNothing(Contents());
      if !Owns(tenantId, id) { return Failed(NotFound); }
      var current := drafts[id];
      ShelfAt(Contents(), id, lt, digest);
      ConsistentParts(id, current, versions[id], lt, digest);
      if current.status != Editable { return Failed(DraftNotEditable); }
      if current.revision != expectedRevision { return Failed(RevisionConflict); }
      var validation := ValidateGraph(value, NoReferences(tenantId), lt);
      if !validation.valid { return Failed(GraphRejected); }
      var graph := validation.graph.value;
      AcceptedNow(value, tenantId, lt);
      AcceptedAgain(graph, tenantId, lt, digest);
      var updated := current.(name := if name.Some? then name.value else current.name, graph := graph,
                              revision := current.revision + 1, fingerprint := Fingerprint(graph, lt, digest));
      ConsistentEditable(updated, lt, digest);
      PutKeeps(Contents(), id, updated, versions[id], lt, digest);
      assert versions[id := versions[id]] == versions;
      drafts := drafts[id := updated];
      return Done(updated);
    }

    /** Publishing an editable draft at its current revision always succeeds: its graph cannot have become invalid. */
    method Publish(tenantId: string, id: string, expectedRevision: int) returns (r: Outcome<Version>)
      requires Valid()
      modifies this
      ensures Valid() && OnlyAppends(old(Contents()), Contents())
      ensures r.Failed? ==> unchanged(this)
      ensures !old(Owns(tenantId, id)) ==> r == Failed(NotFound)
      ensures old(Owns(tenantId, id)) && old(versions[id]) != [] ==> r == Failed(DraftNotEditable)
      ensures old(Owns(tenantId, id)) && old(versions[id]) == [] && old(drafts[id]).revision != expectedRevision ==>
                r == Failed(RevisionConflict)
      ensures old(Owns(tenantId, id)) && old(versions[id]) == [] && old(drafts[id]).revision == expectedRevision ==> r.Done?
      ensures r.Done? ==>
                && r.value == Version(id, tenantId, old(drafts[id]).name, old(drafts[id]).graph, expectedRevision, 1, Option.None,
                                      digest(old(drafts[id]).graph))
                && drafts == old(drafts)[id := old(drafts[id]).(status := Published)]
                && versions == old(versions)[id := [r.value]]
    {
      hide NormalizeGraph, CanonicalGraphHash, Accepted, Consistent, ErrorsExact, ValidGraph, GraphValue, ValidShelf, OnlyAppends;
      AppendsNothing(Contents());
      if !Owns(tenantId, id) { return Failed(NotFound); }
      var current := drafts[id];
      ShelfAt(Contents(), id, lt, digest);
      ConsistentParts(id, current, versions[id], lt, digest);
      if current.status != Editable { return Failed(DraftNotEditable); }
      if current.revision != expectedRevision { return Failed(RevisionConflict); }
      AcceptedAgain(current.graph, tenantId, lt, digest);
      ConsistentPublished(current, lt, digest);
      var validation := ValidateGraph(GraphValue(current.graph), NoReferences(tenantId), lt);
      if !validation.valid { return Failed(GraphRejected); }
      var history := versions[id];
      var published := Version(id, current.tenantId, current.name, current.graph, current.revision, |history| + 1,
                               Option.None, Fingerprint(current.graph, lt, digest));
      assert history + [published] == [published];
      PutKeeps(Contents(), id, current.(status := Published), history + [published], lt, digest);
      versions := versions[id := history + [published]];
      drafts := drafts[id := current.(status := Published)];
      return Done(published);
    }

    /** Restoring appends a copy of an existing version under the next number and the next revision. */
    method Restore(tenantId: string, id: string, version: int) returns (r: Outcome<Version>)
      requires Valid()
      modifies this
      ensures Valid() && OnlyAppends(old(Contents()), Contents())
      ensures r.Failed? ==> unchanged(this)
      ensures !old(Owns(tenantId, id)) ==> r == Failed(NotFound)
      ensures old(Owns(tenantId, id)) ==>
                if 1 <= version <= |old(versions[id])| then r.Done? else r == Failed(VersionNotFound)
      ensures r.Done? ==>
                && r.value == Version(id, tenantId, old(versions[id])[version - 1].name, old(versions[id])[version - 1].graph,
                                      old(drafts[id]).revision + 1, |old(versions[id])| + 1, Option.Some(version),
                                      old(versions[id])[version - 1].fingerprint)
                && drafts == old(drafts)[id := old(drafts[id]).(revision := old(drafts[id]).revision + 1)]
                && versions == old(versions)[id := old(versions[id]) + [r.value]]
    {
      hide NormalizeGraph, CanonicalGraphHash, Accepted, Consistent, ErrorsExact, ValidGraph, GraphValue, ValidShelf, OnlyAppends;
      AppendsNothing(Contents());
      if !Owns(tenantId, id) { return Failed(NotFound); }
      var current := drafts[id];
      ShelfAt(Contents(), id, lt, digest);
      var history := versions[id];
      ConsistentParts(id, current, history, lt, digest);
      FindNumbered(history, version, 0);
      var source := FindVersion(history, version);
      if source.None? || source.value.tenantId != tenantId { return Failed(VersionNotFound); }
      var restored := Version(id, tenantId, source.value.name, source.value.graph, current.revision + 1, |history| + 1,
                              Option.Some(version), source.value.fingerprint);
      ConsistentRestored(current, history, version, lt, digest);
      PutKeeps(Contents(), id, current.(revision := current.revision + 1), history + [restored], lt, digest);
      versions := versions[id := history + [restored]];
      drafts := drafts[id := current.(status := Published, revision := restored.revision,
                                      graph := source.value.graph, fingerprint := source.value.fingerprint)];
      return Done(restored);
    }

    /** An execution is pinned to the newest version, whose fingerprint is the hash of the draft's own graph. */
    method ExecutionReference(tenantId: string, id: string) returns (r: Outcome<Reference>)
      requires Valid()
      ensures !Owns(tenantId, id) ==> r == Failed(NotFound)
      ensures Owns(tenantId, id) && versions[id] == [] ==> r == Failed(PublishedVersionRequired)
      ensures Owns(tenantId, id) && versions[id] != [] ==> r == Done(Reference(id, |versions[id]|, digest(drafts[id].graph)))
    {
      hide NormalizeGraph, CanonicalGraphHash, Accepted, Consistent, ErrorsExact, ValidGraph, GraphValue, ValidShelf, OnlyAppends;
      AppendsNothing(Contents());
      if !Owns(tenantId, id) { return Failed(NotFound); }
      ShelfAt(Contents(), id, lt, digest);
      ConsistentParts(id, drafts[id], versions[id], lt, digest);
      var history := versions[id];
      if history == [] || history[|history| - 1].tenantId != tenantId { return Failed(PublishedVersionRequired); }
      var published := history[|history| - 1];
      return Done(Reference(id, published.version, published.fingerprint));
    }
  }
}
