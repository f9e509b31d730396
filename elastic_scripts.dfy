/** The two inline update scripts the Elasticsearch store sends with every
    update-by-query, as per-document updates of the `tags` list and the
    `evebox.history` list, and update-by-query itself as "apply the script to every
    matching document". */
module ElasticScripts {
  import opened Base
  import opened DatastoreTypes
  import opened ElasticQuery

  predicate NoDup(s: seq<string>) {
    forall i, j :: 0 <= i < j < |s| ==> s[i] != s[j]
  }

  // ---------------------------------------------------------------------------
  // Tag lists
  // ---------------------------------------------------------------------------

  /** The add script's tag loop: each requested tag not yet present is appended. The
      existing tags stay in front, in order; every requested tag is present
      afterwards; what is appended is new and appended once. */
  function AddedTags(existing: seq<string>, requested: seq<string>): (r: seq<string>)
    ensures existing <= r
    ensures forall t :: t in requested ==> t in r
    ensures forall t :: t in r ==> t in existing || t in requested
    ensures forall i :: |existing| <= i < |r| ==> r[i] !in existing
    ensures forall i, j :: |existing| <= i < j < |r| ==> r[i] != r[j]
    decreases |requested|
  {
    if |requested| == 0 then existing
    else
      var prev := AddedTags(existing, requested[..|requested| - 1]);
      var t := requested[|requested| - 1];
      if t in prev then prev else prev + [t]
  }

  /** Adding never creates a duplicate. */
  lemma AddedTagsNoDup(existing: seq<string>, requested: seq<string>)
    requires NoDup(existing)
    ensures NoDup(AddedTags(existing, requested))
  {
    var r := AddedTags(existing, requested);
    forall i, j | 0 <= i < j < |r| ensures r[i] != r[j] {
      if j < |existing| {
        assert r[i] == existing[i] && r[j] == existing[j];
      } else if i < |existing| {
        assert r[i] in existing;
      }
    }
  }

  /** Requesting tags that are all present already changes nothing. */
  lemma {:induction false} AddedTagsPresent(existing: seq<string>, requested: seq<string>)
    requires forall t :: t in requested ==> t in existing
    ensures AddedTags(existing, requested) == existing
    decreases |requested|
  {
    if |requested| > 0 {
      var init := requested[..|requested| - 1];
      assert forall t :: t in init ==> t in requested;
      AddedTagsPresent(existing, init);
      assert requested[|requested| - 1] in requested;
    }
  }

  /** Running the add script's tag loop twice is running it once. */
  lemma AddedTagsIdempotent(existing: seq<string>, requested: seq<string>)
    ensures AddedTags(AddedTags(existing, requested), requested) == AddedTags(existing, requested)
  {
    AddedTagsPresent(AddedTags(existing, requested), requested);
  }

  /** `removeIf(entry -> entry == tag)`: every occurrence of `tag` leaves, the rest
      keep their order. */
  function Without(s: seq<string>, tag: string): (r: seq<string>)
    ensures forall x :: x in r <==> x in s && x != tag
    ensures |r| <= |s|
    decreases |s|
  {
    if |s| == 0 then []
    else Without(s[..|s| - 1], tag) + (if s[|s| - 1] == tag then [] else [s[|s| - 1]])
  }

  /** The remove script's tag loop: `removeIf` once per requested tag. */
  function RemovedTags(existing: seq<string>, requested: seq<string>): (r: seq<string>)
    ensures forall x :: x in r <==> x in existing && x !in requested
    decreases |requested|
  {
    if |requested| == 0 then existing
    else Without(RemovedTags(existing, requested[..|requested| - 1]), requested[|requested| - 1])
  }

  /** Reference definition: the existing tags that were not requested, in their
      original order. */
  function Unrequested(existing: seq<string>, requested: seq<string>): seq<string>
    decreases |existing|
  {
    if |existing| == 0 then []
    else
      Unrequested(existing[..|existing| - 1], requested)
      + (if existing[|existing| - 1] in requested then [] else [existing[|existing| - 1]])
  }

  lemma {:induction false} WithoutAppend(a: seq<string>, b: seq<string>, tag: string)
    ensures Without(a + b, tag) == Without(a, tag) + Without(b, tag)
    decreases |b|
  {
    if |b| == 0 {
      assert a + b == a;
    } else {
      var b' := b[..|b| - 1];
      assert (a + b)[..|a + b| - 1] == a + b';
      WithoutAppend(a, b', tag);
    }
  }

  lemma {:induction false} WithoutUnrequested(existing: seq<string>, requested: seq<string>, tag: string)
    ensures Without(Unrequested(existing, requested), tag) == Unrequested(existing, requested + [tag])
    decreases |existing|
  {
    if |existing| > 0 {
      var init := existing[..|existing| - 1];
      var x := existing[|existing| - 1];
      var tail := if x in requested then [] else [x];
      WithoutUnrequested(init, requested, tag);
      WithoutAppend(Unrequested(init, requested), tail, tag);
      if tail != [] {
        assert tail[..0] == [];
      }
    }
  }

  /** The remove loop keeps exactly the unrequested tags, in their original order. */
  lemma {:induction false} RemovedTagsKeepsOrder(existing: seq<string>, requested: seq<string>)
    ensures RemovedTags(existing, requested) == Unrequested(existing, requested)
    decreases |requested|
  {
    if |requested| == 0 {
      UnrequestedNone(existing);
    } else {
      var init := requested[..|requested| - 1];
      RemovedTagsKeepsOrder(existing, init);
      WithoutUnrequested(existing, init, requested[|requested| - 1]);
      assert init + [requested[|requested| - 1]] == requested;
    }
  }

  lemma {:induction false} UnrequestedNone(existing: seq<string>)
    ensures Unrequested(existing, []) == existing
    decreases |existing|
  {
    if |existing| > 0 {
      UnrequestedNone(existing[..|existing| - 1]);
    }
  }

  // ---------------------------------------------------------------------------
  // The scripts on one document
  // ---------------------------------------------------------------------------

  /** The script sent with an update: add or remove tags, and record the action. */
  datatype Script =
    | AddTags(tags: seq<string>, entry: HistoryEntry)
    | RemoveTags(tags: seq<string>, entry: HistoryEntry)

  /** The effect of a script on one document. The add script creates a missing tag
      list (its tag parameter is always a list, empty for comments); the remove
      script leaves a missing tag list missing. Both create the history list if
      needed and append the action to it. */
  function ApplyScript(d: Doc, s: Script): (r: Doc)
    ensures r.id == d.id && r.fields == d.fields
    ensures r.history.Some? && r.history.value == d.history.GetOr([]) + [s.entry]
    ensures s.AddTags? ==> r.tags.Some? && d.tags.GetOr([]) <= r.tags.value
    ensures s.AddTags? ==> forall t :: t in s.tags ==> HasTag(r, t)
    ensures s.RemoveTags? ==> r.tags.Some? == d.tags.Some?
    ensures s.RemoveTags? ==> forall t :: t in s.tags ==> !HasTag(r, t)
  {
    match s
    case AddTags(tags, entry) =>
      d.(tags := Some(AddedTags(d.tags.GetOr([]), tags)), history := Some(d.history.GetOr([]) + [entry]))
    case RemoveTags(tags, entry) =>
      d.(tags := if d.tags.Some? then Some(RemovedTags(d.tags.value, tags)) else None,
         history := Some(d.history.GetOr([]) + [entry]))
  }

  /** The add script as written: create the tag list when missing, append each
      requested tag that is not yet there, create the history when missing and
      append the action. */
  method RunAddTagsScript(d: Doc, tags: seq<string>, entry: HistoryEntry) returns (r: Doc)
    ensures r == ApplyScript(d, AddTags(tags, entry))
  {
    var current := if d.tags.None? then [] else d.tags.value;
    for i := 0 to |tags|
      invariant current == AddedTags(d.tags.GetOr([]), tags[..i])
    {
      assert tags[..i + 1][..i] == tags[..i];
      if tags[i] !in current {
        current := current + [tags[i]];
      }
    }
    assert tags[..|tags|] == tags;
    var history := if d.history.None? then [] else d.history.value;
    history := history + [entry];
    r := d.(tags := Some(current), history := Some(history));
  }

  /** The remove script as written: when there is a tag list, drop every occurrence
      of each requested tag; create the history when missing and append the action. */
  method RunRemoveTagsScript(d: Doc, tags: seq<string>, entry: HistoryEntry) returns (r: Doc)
    ensures r == ApplyScript(d, RemoveTags(tags, entry))
  {
    var newTags := d.tags;
    if d.tags.Some? {
      var current := d.tags.value;
      for i := 0 to |tags|
        invariant current == RemovedTags(d.tags.value, tags[..i])
      {
        assert tags[..i + 1][..i] == tags[..i];
        current := Without(current, tags[i]);
      }
      assert tags[..|tags|] == tags;
      newTags := Some(current);
    }
    var history := if d.history.None? then [] else d.history.value;
    history := history + [entry];
    r := d.(tags := newTags, history := Some(history));
  }

  /** A comment (an add with no tags) changes nothing but the history, apart from
      turning a missing tag list into an empty one. */
  lemma CommentOnlyRecords(d: Doc, entry: HistoryEntry)
    ensures ApplyScript(d, AddTags([], entry)).tags == Some(d.tags.GetOr([]))
    ensures |ApplyScript(d, AddTags([], entry)).history.value| == |d.history.GetOr([])| + 1
  {
  }

  // ---------------------------------------------------------------------------
  // Update-by-query over a document collection
  // ---------------------------------------------------------------------------

  /** The index after an update-by-query: matching documents are rewritten by the
      script, every other document is left as it was. */
  function UpdatedIndex(index: seq<Doc>, q: Query, s: Script): (r: seq<Doc>)
    requires StructuredQuery(q)
    ensures |r| == |index|
    ensures forall i :: 0 <= i < |index| && !Matches(index[i], q) ==> r[i] == index[i]
    ensures forall i :: 0 <= i < |index| && Matches(index[i], q) ==> r[i] == ApplyScript(index[i], s)
  {
    seq(|index|, i requires 0 <= i < |index| => if Matches(index[i], q) then ApplyScript(index[i], s) else index[i])
  }

  /** Updating an index extended by one document extends the updated index by
      that document, rewritten when it matches. */
  lemma UpdatedIndexSnoc(index: seq<Doc>, d: Doc, q: Query, s: Script)
    requires StructuredQuery(q)
    ensures UpdatedIndex(index + [d], q, s)
      == UpdatedIndex(index, q, s) + [if Matches(d, q) then ApplyScript(d, s) else d]
  {
    var lhs := UpdatedIndex(index + [d], q, s);
    var rhs := UpdatedIndex(index, q, s) + [if Matches(d, q) then ApplyScript(d, s) else d];
    forall i | 0 <= i < |lhs|
      ensures lhs[i] == rhs[i]
    {
      if i < |index| {
        assert (index + [d])[i] == index[i];
      }
    }
  }

  /** The number of documents a query matches (the `updated` count of the response). */
  function CountMatching(index: seq<Doc>, q: Query): (n: nat)
    requires StructuredQuery(q)
    ensures n <= |index|
    ensures n == 0 <==> forall i :: 0 <= i < |index| ==> !Matches(index[i], q)
    decreases |index|
  {
    if |index| == 0 then 0
    else CountMatching(index[..|index| - 1], q) + (if Matches(index[|index| - 1], q) then 1 else 0)
  }

  /** An update whose query matches nothing leaves the index unchanged. */
  lemma UpdateNothingMatched(index: seq<Doc>, q: Query, s: Script)
    requires StructuredQuery(q)
    requires CountMatching(index, q) == 0
    ensures UpdatedIndex(index, q, s) == index
  {
  }

  /** Adding tags by alert group (with at least one tag) leaves no document that the
      same request would match again, so repeating it changes nothing — not even the
      history. */
  lemma AddByGroupRepeatIsNoop(index: seq<Doc>, ecs: bool, spec: AlertGroupSpec, tags: seq<string>, first: HistoryEntry, again: HistoryEntry)
    requires tags != []
    ensures var q := AddByGroupQuery(ecs, spec, tags);
      var after := UpdatedIndex(index, q, AddTags(tags, first));
      CountMatching(after, q) == 0 && UpdatedIndex(after, q, AddTags(tags, again)) == after
  {
    var q := AddByGroupQuery(ecs, spec, tags);
    var after := UpdatedIndex(index, q, AddTags(tags, first));
    forall i | 0 <= i < |after| ensures !Matches(after[i], q) {
      if Matches(index[i], q) {
        AddByGroupQueryMeaning(after[i], ecs, spec, tags);
        assert tags[0] in tags && HasTag(after[i], tags[0]);
      }
    }
    UpdateNothingMatched(after, q, AddTags(tags, again));
  }

  /** Removing tags by alert group (with at least one tag) leaves no document that
      the same request would match again. */
  lemma RemoveByGroupRepeatIsNoop(index: seq<Doc>, ecs: bool, spec: AlertGroupSpec, tags: seq<string>, first: HistoryEntry, again: HistoryEntry)
    requires tags != []
    ensures var q := RemoveByGroupQuery(ecs, spec, tags);
      var after := UpdatedIndex(index, q, RemoveTags(tags, first));
      CountMatching(after, q) == 0 && UpdatedIndex(after, q, RemoveTags(tags, again)) == after
  {
    var q := RemoveByGroupQuery(ecs, spec, tags);
    var after := UpdatedIndex(index, q, RemoveTags(tags, first));
    forall i | 0 <= i < |after| ensures !Matches(after[i], q) {
      if Matches(index[i], q) {
        RemoveByGroupQueryMeaning(after[i], ecs, spec, tags);
        assert tags[0] in tags && !HasTag(after[i], tags[0]);
      }
    }
    UpdateNothingMatched(after, q, RemoveTags(tags, again));
  }

  /** Removing by alert group requires every tag of the list: an alert that carries
      only the stored escalation tag (as escalating it by id leaves it) is not
      reached by de-escalating its group. */
  lemma DeescalateByGroupNeedsBothTags(d: Doc, ecs: bool, spec: AlertGroupSpec)
    requires d.tags == Some([TAG_ESCALATED])
    ensures !Matches(d, RemoveByGroupQuery(ecs, spec, TAGS_ESCALATED))
  {
    RemoveByGroupQueryMeaning(d, ecs, spec, TAGS_ESCALATED);
    assert "escalated" in TAGS_ESCALATED;
    assert "escalated" != TAG_ESCALATED;
  }

  /** A by-id update touches only the documents with that identifier. */
  lemma ByIdUpdateScope(index: seq<Doc>, id: string, s: Script, i: nat)
    requires i < |index|
    ensures var after := UpdatedIndex(index, ByIdQuery(id), s);
      after[i] == (if index[i].id == id then ApplyScript(index[i], s) else index[i])
  {
    ByIdQueryMeaning(index[i], id);
  }
}
