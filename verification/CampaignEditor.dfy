/** The versioned campaign editor (modules/marketing/campaign-service.js). */
module CampaignEditor {
  import opened Wrappers

  datatype Status = Editable | Published

  datatype Profile = Profile(channel: string, version: int)

  /** `Content` stands for normalised campaign content. */
  datatype Draft<Content> = Draft(id: string, tenantId: string, name: string, channel: string, profileVersion: int,
                                  content: Content, revision: nat, status: Status, fingerprint: string)

  datatype Version<Content> = Version(draft: Draft<Content>, version: nat, restoredFrom: Option<int>)

  datatype Reference = Reference(campaignId: string, version: nat, fingerprint: string, profileVersion: int)

  datatype EditorError =
    NotFound | DraftNotEditable | RevisionConflict | ContentRejected | ChannelNotSupported | VersionNotFound | PublishedVersionRequired

  datatype Outcome<T> = Done(value: T) | Failed(error: EditorError)

  type Digest<!Content> = (string, Content, int) -> string

  /** The fingerprint covers the channel, the content and the profile version, and nothing else. */
  ghost predicate Fingerprinted<Content>(d: Draft<Content>, digest: Digest<Content>) {
    d.fingerprint == digest(d.channel, d.content, d.profileVersion)
  }

  /**
   * What every run keeps about one draft and its history. `restore` copies content and fingerprint but not the
   * channel or the profile version; that is harmless because neither can change after the first publish.
   */
  ghost predicate Consistent<Content>(id: string, d: Draft<Content>, history: seq<Version<Content>>, digest: Digest<Content>) {
    && d.id == id
    && Fingerprinted(d, digest)
    && (d.status == Editable <==> history == [])
    && (history != [] ==> d.revision == history[|history| - 1].draft.revision)
    && forall i | 0 <= i < |history| ::
         && history[i].version == i + 1
         && history[i].draft == d.(revision := history[0].draft.revision + i)
  }

  lemma ConsistentParts<Content>(id: string, d: Draft<Content>, history: seq<Version<Content>>, digest: Digest<Content>)
    requires Consistent(id, d, history, digest)
    ensures d.id == id && Fingerprinted(d, digest) && (d.status == Editable <==> history == [])
    ensures forall i | 0 <= i < |history| ::
              history[i].version == i + 1 && history[i].draft == d.(revision := history[i].draft.revision)
  {
  }

  lemma ConsistentEditable<Content>(d: Draft<Content>, digest: Digest<Content>)
    requires Fingerprinted(d, digest) && d.status == Editable
    ensures Consistent(d.id, d, [], digest)
  {
  }

  lemma ConsistentPublished<Content>(d: Draft<Content>, digest: Digest<Content>)
    requires Consistent(d.id, d, [], digest)
    ensures Consistent(d.id, d.(status := Published), [Version(d.(status := Published), 1, None)], digest)
  {
  }

  lemma ConsistentRestored<Content>(d: Draft<Content>, history: seq<Version<Content>>, source: int, digest: Digest<Content>)
    requires Consistent(d.id, d, history, digest) && history != []
    ensures var next := d.(revision := d.revision + 1);
            Consistent(d.id, next, history + [Version(next, |history| + 1, Some(source))], digest)
  {
    var n := |history| - 1;
    assert history[n].draft == d.(revision := history[0].draft.revision + n);
  }

  function FindVersion<Content>(history: seq<Version<Content>>, version: int): Option<Version<Content>> {
    if history == [] then None
    else if history[0].version == version then Some(history[0])
    else FindVersion(history[1..], version)
  }

  lemma {:induction false} FindNumbered<Content>(history: seq<Version<Content>>, version: int, start: nat)
    requires forall i | 0 <= i < |history| :: history[i].version == start + i + 1
    ensures FindVersion(history, version) ==
            if start < version <= start + |history| then Some(history[version - start - 1]) else None
  {
    if history != [] {
      FindNumbered(history[1..], version, start + 1);
    }
  }

  /** All drafts with their histories. */
  datatype Shelf<Content> = Shelf(drafts: map<string, Draft<Content>>, versions: map<string, seq<Version<Content>>>)

  ghost predicate ValidShelf<Content>(s: Shelf<Content>, digest: Digest<Content>) {
    && s.versions.Keys == s.drafts.Keys
    && forall id | id in s.drafts :: Consistent(id, s.drafts[id], s.versions[id], digest)
  }

  /** No history loses or changes an entry. */
  ghost predicate OnlyAppends<Content>(before: Shelf<Content>, after: Shelf<Content>) {
    before.versions.Keys <= after.versions.Keys && forall id | id in before.versions :: before.versions[id] <= after.versions[id]
  }

  /** Writing one consistent draft whose history extends the old one keeps the whole shelf. */
  lemma PutKeeps<Content>(s: Shelf<Content>, id: string, d: Draft<Content>, history: seq<Version<Content>>, digest: Digest<Content>)
    requires ValidShelf(s, digest) && Consistent(id, d, history, digest)
    requires id in s.versions ==> s.versions[id] <= history
    ensures ValidShelf(Shelf(s.drafts[id := d], s.versions[id := history]), digest)
    ensures OnlyAppends(s, Shelf(s.drafts[id := d], s.versions[id := history]))
  {
    hide Consistent;
  }

  lemma ShelfAt<Content>(s: Shelf<Content>, id: string, digest: Digest<Content>)
    requires ValidShelf(s, digest) && id in s.drafts
    ensures id in s.versions && Consistent(id, s.drafts[id], s.versions[id], digest)
  {
    hide Consistent;
  }

  lemma ShelfKeys<Content>(s: Shelf<Content>, digest: Digest<Content>)
    requires ValidShelf(s, digest)
    ensures s.versions.Keys == s.drafts.Keys
  {
    hide Consistent;
  }

  lemma AppendsNothing<Content>(s: Shelf<Content>)
    ensures OnlyAppends(s, s)
  {
  }

  class Editor<Raw, Content(==)> {
    const normalize: Raw -> Option<Content>
    const profileOf: string -> Option<Profile>
    const digest: Digest<Content>
    var drafts: map<string, Draft<Content>>
    var versions: map<string, seq<Version<Content>>>

    ghost function Contents(): Shelf<Content>
      reads this
    {
      Shelf(drafts, versions)
    }

    ghost predicate Valid()
      reads this
    {
      ValidShelf(Contents(), digest)
    }

    constructor (normalize: Raw -> Option<Content>, profileOf: string -> Option<Profile>, digest: Digest<Content>)
      ensures Valid() && drafts == map[]
    {
      this.normalize, this.profileOf, this.digest := normalize, profileOf, digest;
      drafts, versions := map[], map[];
    }

    predicate Owns(tenantId: string, id: string)
      reads this
    {
      id in drafts && drafts[id].tenantId == tenantId
    }

    method CreateDraft(tenantId: string, name: string, channel: string, raw: Raw, freshId: string) returns (r: Outcome<Draft<Content>>)
      requires Valid() && freshId !in drafts
      modifies this
      ensures Valid() && OnlyAppends(old(Contents()), Contents())
      ensures r.Failed? ==> unchanged(this)
      ensures normalize(raw).None? ==> r == Failed(ContentRejected)
      ensures normalize(raw).Some? && profileOf(channel).None? ==> r == Failed(ChannelNotSupported)
      ensures normalize(raw).Some? && profileOf(channel).Some? ==>
                && r.Done?
                && r.value.content == normalize(raw).value
                && Profile(r.value.channel, r.value.profileVersion) == profileOf(channel).value
                && r.value.revision == 1 && r.value.tenantId == tenantId && r.value.name == name
                && drafts == old(drafts)[freshId := r.value] && versions == old(versions)[freshId := []]
    {
      hide Consistent, ValidShelf, OnlyAppends;
      AppendsNothing(Contents());
      var content := normalize(raw);
      if content.None? { return Failed(ContentRejected); }
      var profile := profileOf(channel);
      if profile.None? { return Failed(ChannelNotSupported); }
      var draft := Draft(freshId, tenantId, name, profile.value.channel, profile.value.version, content.value, 1, Editable,
                         digest(profile.value.channel, content.value, profile.value.version));
      ConsistentEditable(draft, digest);
      ShelfKeys(Contents(), digest);
      PutKeeps(Contents(), freshId, draft, [], digest);
      drafts := drafts[freshId := draft];
      versions := versions[freshId := []];
      return Done(draft);
    }

    /** `channel` may be absent or empty, in which case the draft keeps its own. */
    method SaveDraft(tenantId: string, id: string, expectedRevision: int, raw: Raw, name: Option<string>, channel: Option<string>)
      returns (r: Outcome<Draft<Content>>)
      requires Valid()
      modifies this
      ensures Valid() && OnlyAppends(old(Contents()), Contents()) && versions == old(versions)
      ensures r.Failed? ==> unchanged(this)
      ensures !old(Owns(tenantId, id)) ==> r == Failed(NotFound)
      ensures old(Owns(tenantId, id)) && old(versions[id]) != [] ==> r == Failed(DraftNotEditable)
      ensures old(Owns(tenantId, id)) && old(versions[id]) == [] && old(drafts[id]).revision != expectedRevision ==>
                r == Failed(RevisionConflict)
      ensures old(Owns(tenantId, id)) && old(versions[id]) == [] && old(drafts[id]).revision == expectedRevision ==>
                var wanted := if channel.Some? && channel.value != "" then channel.value else old(drafts[id]).channel;
                if normalize(raw).None? then r == Failed(ContentRejected)
                else if profileOf(wanted).None? then r == Failed(ChannelNotSupported)
                else r.Done?
      ensures r.Done? ==>
                && old(Owns(tenantId, id)) && old(drafts[id]).revision == expectedRevision
                && r.value.revision == expectedRevision + 1 && r.value.status == Editable
                && normalize(raw) == Some(r.value.content)
                && r.value.name == (if name.Some? then name.value else old(drafts[id]).name)
                && profileOf(if channel.Some? && channel.value != "" then channel.value else old(drafts[id]).channel)
                   == Some(Profile(r.value.channel, r.value.profileVersion))
                && drafts == old(drafts)[id := r.value]
    {
      hide Consistent, ValidShelf, OnlyAppends;
      AppendsNothing(Contents());
      if !Owns(tenantId, id) { return Failed(NotFound); }
      var current := drafts[id];
      ShelfAt(Contents(), id, digest);
      ConsistentParts(id, current, versions[id], digest);
      if current.status != Editable { return Failed(DraftNotEditable); }
      if current.revision != expectedRevision { return Failed(RevisionConflict); }
      var content := normalize(raw);
      if content.None? { return Failed(ContentRejected); }
      var profile := profileOf(if channel.Some? && channel.value != "" then channel.value else current.channel);
      if profile.None? { return Failed(ChannelNotSupported); }
      var updated := current.(name := if name.Some? then name.value else current.name, channel := profile.value.channel,
                              profileVersion := profile.value.version, content := content.value,
                              revision := current.revision + 1,
                              fingerprint := digest(profile.value.channel, content.value, profile.value.version));
      ConsistentEditable(updated, digest);
      PutKeeps(Contents(), id, updated, versions[id], digest);
      assert versions[id := versions[id]] == versions;
      drafts := drafts[id := updated];
      return Done(updated);
    }

    method Publish(tenantId: string, id: string, expectedRevision: int) returns (r: Outcome<Version<Content>>)
      requires Valid()
      modifies this
      ensures Valid() && OnlyAppends(old(Contents()), Contents())
      ensures r.Failed? ==> unchanged(this)
      ensures !old(Owns(tenantId, id)) ==> r == Failed(NotFound)
      ensures old(Owns(tenantId, id)) && old(versions[id]) != [] ==> r == Failed(DraftNotEditable)
      ensures old(Owns(tenantId, id)) && old(versions[id]) == [] && old(drafts[id]).revision != expectedRevision ==>
                r == Failed(RevisionConflict)
      ensures old(Owns(tenantId, id)) && old(versions[id]) == [] && old(drafts[id]).revision == expectedRevision ==>
                && r == Done(Version(old(drafts[id]).(status := Published), 1, None))
                && drafts == old(drafts)[id := old(drafts[id]).(status := Published)]
                && versions == old(versions)[id := [r.value]]
    {
      hide Consistent, ValidShelf, OnlyAppends;
      AppendsNothing(Contents());
      if !Owns(tenantId, id) { return Failed(NotFound); }
      var current := drafts[id];
      ShelfAt(Contents(), id, digest);
      var history := versions[id];
      ConsistentParts(id, current, history, digest);
      if current.status != Editable { return Failed(DraftNotEditable); }
      if current.revision != expectedRevision { return Failed(RevisionConflict); }
      var published := Version(current.(status := Published), |history| + 1, None);
      ConsistentPublished(current, digest);
      assert history + [published] == [published];
      PutKeeps(Contents(), id, current.(status := Published), history + [published], digest);
      versions := versions[id := history + [published]];
      drafts := drafts[id := current.(status := Published)];
      return Done(published);
    }

    /** The draft takes content and fingerprint from the source version and keeps its own channel and profile. */
    method Restore(tenantId: string, id: string, version: int) returns (r: Outcome<Version<Content>>)
      requires Valid()
      modifies this
      ensures Valid() && OnlyAppends(old(Contents()), Contents())
      ensures r.Failed? ==> unchanged(this)
      ensures !old(Owns(tenantId, id)) ==> r == Failed(NotFound)
      ensures old(Owns(tenantId, id)) ==>
                if 1 <= version <= |old(versions[id])| then r.Done? else r == Failed(VersionNotFound)
      ensures r.Done? ==>
                && Fingerprinted(drafts[id], digest)
                && drafts == old(drafts)[id := old(drafts[id]).(revision := old(drafts[id]).revision + 1)]
                && r.value == Version(drafts[id], |old(versions[id])| + 1, Some(version))
                && versions == old(versions)[id := old(versions[id]) + [r.value]]
    {
      hide Consistent, ValidShelf, OnlyAppends;
      AppendsNothing(Contents());
      if !Owns(tenantId, id) { return Failed(NotFound); }
      var current := drafts[id];
      ShelfAt(Contents(), id, digest);
      var history := versions[id];
      ConsistentParts(id, current, history, digest);
      FindNumbered(history, version, 0);
      var source := FindVersion(history, version);
      if source.None? || source.value.draft.tenantId != tenantId { return Failed(VersionNotFound); }
      var restored := Version(source.value.draft.(revision := current.revision + 1, status := Published),
                              |history| + 1, Some(version));
      ConsistentRestored(current, history, version, digest);
      PutKeeps(Contents(), id, current.(revision := current.revision + 1), history + [restored], digest);
      versions := versions[id := history + [restored]];
      drafts := drafts[id := current.(status := Published, revision := restored.draft.revision,
                                      content := source.value.draft.content, fingerprint := source.value.draft.fingerprint)];
      return Done(restored);
    }

    /** A dispatch is pinned to the newest version, whose fingerprint matches the draft it was cut from. */
    method DispatchReference(tenantId: string, id: string) returns (r: Outcome<Reference>)
      requires Valid()
      ensures !Owns(tenantId, id) ==> r == Failed(NotFound)
      ensures Owns(tenantId, id) && versions[id] == [] ==> r == Failed(PublishedVersionRequired)
      ensures Owns(tenantId, id) && versions[id] != [] ==>
                r == Done(Reference(id, |versions[id]|, digest(drafts[id].channel, drafts[id].content, drafts[id].profileVersion),
                                    drafts[id].profileVersion))
    {
      hide Consistent, ValidShelf, OnlyAppends;
      AppendsNothing(Contents());
      if !Owns(tenantId, id) { return Failed(NotFound); }
      ShelfAt(Contents(), id, digest);
      ConsistentParts(id, drafts[id], versions[id], digest);
      var history := versions[id];
      if history == [] { return Failed(PublishedVersionRequired); }
      var published := history[|history| - 1];
      return Done(Reference(drafts[id].id, published.version, published.draft.fingerprint, published.draft.profileVersion));
    }
  }
}
