/**
 * The JSON Patch document (RFC 6902) that `create_work_item` sends: an ordered
 * list of "add" operations on work item fields. Title, description and
 * priority are always set; the assignee only when it is a non-empty string;
 * the tags, joined by "; ", only when a non-empty list was given.
 */
module WorkItemPatch {
  import opened Wrappers
  import opened JsonPatch
  import Decimal

  const TitlePath := "/fields/System.Title"
  const DescriptionPath := "/fields/System.Description"
  const PriorityPath := "/fields/Microsoft.VSTS.Common.Priority"
  const AssignedToPath := "/fields/System.AssignedTo"
  const TagsPath := "/fields/System.Tags"
  const TagSeparator := "; "


  /** The priority range of the tool's argument schema (1 is highest). */
  predicate ValidPriority(priority: int) {
    1 <= priority <= 4
  }

  const DefaultPriority := 2

  /** A tag list was given and holds at least one tag. */
  predicate HasTags(tags: Option<seq<string>>) {
    tags.Some? && |tags.value| > 0
  }

  /** The tags in order, separated by "; " (JavaScript's array `join`). */
  function JoinTags(tags: seq<string>): string {
    if |tags| == 0 then ""
    else if |tags| == 1 then tags[0]
    else tags[0] + TagSeparator + JoinTags(tags[1..])
  }

  /** The index of the first "; " in `s`, if any. */
  function FindSeparator(s: string): (r: Option<nat>)
    ensures r.Some? ==> r.value + 1 < |s| && s[r.value] == ';' && s[r.value + 1] == ' '
  {
    if |s| < 2 then None
    else if s[0] == ';' && s[1] == ' ' then Some(0)
    else match FindSeparator(s[1..])
      case None => None
      case Some(i) => Some(i + 1)
  }

  /** Splits a tag string at every "; ", the reading back of `JoinTags`. */
  function SplitTags(s: string): seq<string>
    decreases |s|
  {
    match FindSeparator(s)
    case None => [s]
    case Some(i) => [s[..i]] + SplitTags(s[i + 2..])
  }

  predicate NoSemicolon(tag: string) {
    forall k :: 0 <= k < |tag| ==> tag[k] != ';'
  }

  lemma {:induction false} FindSeparatorAfterTag(tag: string, rest: string)
    requires NoSemicolon(tag)
    ensures FindSeparator(tag + TagSeparator + rest) == Some(|tag|)
  {
    if |tag| > 0 {
      assert (tag + TagSeparator + rest)[1..] == tag[1..] + TagSeparator + rest;
      FindSeparatorAfterTag(tag[1..], rest);
    }
  }

  lemma {:induction false} FindSeparatorNone(tag: string)
    requires NoSemicolon(tag)
    ensures FindSeparator(tag) == None
  {
    if |tag| >= 2 {
      FindSeparatorNone(tag[1..]);
    }
  }

  /** A non-empty list of tags without ';' is recovered from its joined form. */
  lemma {:induction false} SplitJoinTags(tags: seq<string>)
    requires |tags| > 0
    requires forall i :: 0 <= i < |tags| ==> NoSemicolon(tags[i])
    ensures SplitTags(JoinTags(tags)) == tags
  {
    if |tags| == 1 {
      FindSeparatorNone(tags[0]);
    } else {
      var rest := JoinTags(tags[1..]);
      var s := tags[0] + TagSeparator + rest;
      FindSeparatorAfterTag(tags[0], rest);
      assert s[..|tags[0]|] == tags[0];
      assert s[|tags[0]| + 2..] == rest;
      SplitJoinTags(tags[1..]);
      assert [tags[0]] + tags[1..] == tags;
    }
  }

  /**
   * The patch document for a new work item, in the order the handler builds it.
   * `priority` is the value after the schema default has been applied.
   */
  function BuildPatchDocument(title: string, description: string, priority: int,
                              assignedTo: Option<string>, tags: Option<seq<string>>): (doc: PatchDocument)
    requires ValidPriority(priority)
    ensures 3 <= |doc| <= 5
    ensures |doc| == 3 + (if Truthy(assignedTo) then 1 else 0) + (if HasTags(tags) then 1 else 0)
    ensures doc[0] == Add(TitlePath, title)
    ensures doc[1] == Add(DescriptionPath, description)
    ensures doc[2] == Add(PriorityPath, Decimal.FromNat(priority))
    ensures Truthy(assignedTo) ==> doc[3] == Add(AssignedToPath, assignedTo.value)
    ensures HasTags(tags) ==> doc[|doc| - 1] == Add(TagsPath, JoinTags(tags.value))
  {
    var mandatory := [Add(TitlePath, title), Add(DescriptionPath, description),
                      Add(PriorityPath, Decimal.FromNat(priority))];
    var withAssignee := if Truthy(assignedTo) then mandatory + [Add(AssignedToPath, assignedTo.value)] else mandatory;
    if HasTags(tags) then withAssignee + [Add(TagsPath, JoinTags(tags.value))] else withAssignee
  }

  /**
   * The work item fields the document sets when applied to a new item: exactly
   * title, description and priority, plus the assignee and the tags when given,
   * each with the value the caller supplied.
   */
  lemma PatchDocumentFields(title: string, description: string, priority: int,
                            assignedTo: Option<string>, tags: Option<seq<string>>)
    requires ValidPriority(priority)
    ensures var f := ApplyPatch(map[], BuildPatchDocument(title, description, priority, assignedTo, tags));
      && f.Keys == {TitlePath, DescriptionPath, PriorityPath}
                   + (if Truthy(assignedTo) then {AssignedToPath} else {})
                   + (if HasTags(tags) then {TagsPath} else {})
      && f[TitlePath] == title
      && f[DescriptionPath] == description
      && Decimal.Parse(f[PriorityPath]) == Some(priority)
      && (Truthy(assignedTo) ==> f[AssignedToPath] == assignedTo.value)
      && (HasTags(tags) ==> f[TagsPath] == JoinTags(tags.value))
  {
    var doc := BuildPatchDocument(title, description, priority, assignedTo, tags);
    var mandatory := [Add(TitlePath, title), Add(DescriptionPath, description),
                      Add(PriorityPath, Decimal.FromNat(priority))];
    var m0: map<string, string> := map[];
    var m3 := m0[TitlePath := title][DescriptionPath := description][PriorityPath := Decimal.FromNat(priority)];
    assert ApplyPatch(m0, mandatory) == m3 by {
      ApplyPatchAppend(m0, [mandatory[0]], mandatory[1..]);
      ApplyPatchAppend(m0[TitlePath := title], [mandatory[1]], mandatory[2..]);
      ApplyOne(m0, mandatory[0]);
      ApplyOne(m0[TitlePath := title], mandatory[1]);
      ApplyOne(m0[TitlePath := title][DescriptionPath := description], mandatory[2]);
    }
    var m4 := if Truthy(assignedTo) then m3[AssignedToPath := assignedTo.value] else m3;
    var withAssignee := if Truthy(assignedTo) then mandatory + [Add(AssignedToPath, assignedTo.value)] else mandatory;
    assert ApplyPatch(m0, withAssignee) == m4 by {
      if Truthy(assignedTo) {
        ApplyPatchAppend(m0, mandatory, [Add(AssignedToPath, assignedTo.value)]);
        ApplyOne(m3, Add(AssignedToPath, assignedTo.value));
      }
    }
    if HasTags(tags) {
      assert doc == withAssignee + [Add(TagsPath, JoinTags(tags.value))];
      ApplyPatchAppend(m0, withAssignee, [Add(TagsPath, JoinTags(tags.value))]);
      ApplyOne(m4, Add(TagsPath, JoinTags(tags.value)));
    } else {
      assert doc == withAssignee;
    }
    Decimal.ParseFromNat(priority);
  }
}
