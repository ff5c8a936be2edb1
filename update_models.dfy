/**
  The `Update` record (news items, announcements, guidelines and alerts), its choice
  table, defaults, default order and text form, and the SET_NULL rule that keeps updates
  alive when the outbreak they refer to is deleted.
 */
module UpdateModels {
  import opened Wrappers
  import opened Seqs
  import opened Text
  import opened Choices
  import opened OutbreakModels

  const UpdateTypeChoices: ChoiceTable :=
    [("news", "News"), ("announcement", "Official Announcement"),
     ("guideline", "Control Measure / Guideline"), ("alert", "Alert / Warning")]

  /**
    A stored update. `relatedOutbreak` is the primary key of the outbreak it refers to,
    if any; `image` and `document` are the stored file names, if any.
   */
  datatype Update = Update(
    id: int,
    title: string,
    content: string,
    updateType: string,
    relatedOutbreak: Option<int>,
    publishedAt: Timestamp,
    updatedAt: Timestamp,
    source: string,
    image: Option<string>,
    document: Option<string>,
    isPublished: bool,
    isFeatured: bool)

  /** An update created with only its title and content. */
  function NewUpdate(id: int, title: string, content: string, now: Timestamp): (u: Update)
    ensures u.updateType == "news" && u.isPublished && !u.isFeatured
    ensures u.source == DefaultSource && u.publishedAt == now
    ensures u.relatedOutbreak == None && u.image == None && u.document == None
  {
    Update(id, title, content, "news", None, now, now, DefaultSource, None, None, true, false)
  }

  /** The four type codes and their labels. */
  lemma UpdateTypeLabels()
    ensures DistinctCodes(UpdateTypeChoices)
    ensures Label(UpdateTypeChoices, "news") == "News"
    ensures Label(UpdateTypeChoices, "announcement") == "Official Announcement"
    ensures Label(UpdateTypeChoices, "guideline") == "Control Measure / Guideline"
    ensures Label(UpdateTypeChoices, "alert") == "Alert / Warning"
  {
    LabelOfListed(UpdateTypeChoices, 0);
    LabelOfListed(UpdateTypeChoices, 1);
    LabelOfListed(UpdateTypeChoices, 2);
    LabelOfListed(UpdateTypeChoices, 3);
  }

  /** `Meta.ordering = ['-published_at']`: newest first. */
  predicate UpdateBefore(a: Update, b: Update)
  {
    a.publishedAt >= b.publishedAt
  }

  lemma UpdateOrderTotal()
    ensures TotalPreorder(UpdateBefore)
  {
  }

  /** `__str__`: the title followed by the type's label in parentheses. */
  function UpdateStr(u: Update): (r: string)
    ensures StartsWith(r, u.title + " (")
    ensures EndsWith(r, Label(UpdateTypeChoices, u.updateType) + ")")
    ensures |r| == |u.title| + |Label(UpdateTypeChoices, u.updateType)| + 3
  {
    u.title + " (" + Label(UpdateTypeChoices, u.updateType) + ")"
  }

  /** An alert titled "Movement ban" reads "Movement ban (Alert / Warning)". */
  lemma UpdateStrExample(now: Timestamp)
    ensures UpdateStr(NewUpdate(1, "Movement ban", "", now).(updateType := "alert")) == "Movement ban (Alert / Warning)"
  {
    UpdateTypeLabels();
  }

  // ---------------------------------------------------------------------------
  // on_delete=SET_NULL
  // ---------------------------------------------------------------------------

  /** An update as it is after outbreak `outbreakId` has been deleted. */
  function Unlink(outbreakId: int): Update -> Update
  {
    (u: Update) => if u.relatedOutbreak == Some(outbreakId) then u.(relatedOutbreak := None) else u
  }

  /** Deleting an outbreak: its row goes, and the updates referring to it lose the reference. */
  function DeleteOutbreak(outbreaks: seq<Outbreak>, updates: seq<Update>, outbreakId: int): (seq<Outbreak>, seq<Update>)
  {
    (Filter((o: Outbreak) => o.id != outbreakId, outbreaks), Map(Unlink(outbreakId), updates))
  }

  /** Every reference an update holds names a stored outbreak. */
  ghost predicate ReferencesValid(outbreaks: seq<Outbreak>, updates: seq<Update>)
  {
    forall i :: 0 <= i < |updates| && updates[i].relatedOutbreak.Some? ==>
      exists o :: o in outbreaks && o.id == updates[i].relatedOutbreak.value
  }

  /**
    No update is deleted; an update that referred to the deleted outbreak keeps every
    field except the reference, which becomes null; every other update is unchanged;
    afterwards no update refers to the deleted outbreak.
   */
  lemma DeleteOutbreakSetsNull(outbreaks: seq<Outbreak>, updates: seq<Update>, outbreakId: int)
    ensures var after := DeleteOutbreak(outbreaks, updates, outbreakId).1;
      && |after| == |updates|
      && (forall i :: 0 <= i < |updates| && updates[i].relatedOutbreak == Some(outbreakId) ==>
            after[i] == updates[i].(relatedOutbreak := None))
      && (forall i :: 0 <= i < |updates| && updates[i].relatedOutbreak != Some(outbreakId) ==>
            after[i] == updates[i])
      && (forall i :: 0 <= i < |after| ==> after[i].relatedOutbreak != Some(outbreakId))
    ensures forall o :: o in DeleteOutbreak(outbreaks, updates, outbreakId).0 <==> o in outbreaks && o.id != outbreakId
  {
    forall o ensures o in DeleteOutbreak(outbreaks, updates, outbreakId).0 <==> o in outbreaks && o.id != outbreakId {
      FilterMembers((o: Outbreak) => o.id != outbreakId, outbreaks, o);
    }
  }

  /** SET_NULL keeps the references valid: no update is left pointing at a missing outbreak. */
  lemma DeleteOutbreakKeepsReferences(outbreaks: seq<Outbreak>, updates: seq<Update>, outbreakId: int)
    requires ReferencesValid(outbreaks, updates)
    ensures ReferencesValid(DeleteOutbreak(outbreaks, updates, outbreakId).0, DeleteOutbreak(outbreaks, updates, outbreakId).1)
  {
    var (os, us) := DeleteOutbreak(outbreaks, updates, outbreakId);
    forall i | 0 <= i < |us| && us[i].relatedOutbreak.Some?
      ensures exists o :: o in os && o.id == us[i].relatedOutbreak.value
    {
      var o :| o in outbreaks && o.id == updates[i].relatedOutbreak.value;
      FilterMembers((o: Outbreak) => o.id != outbreakId, outbreaks, o);
      assert o in os;
    }
  }
}
