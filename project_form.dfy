/** The project form's tag editor and the request it sends: tags are added trimmed, once each,
    and removed by value; the request carries the editor's tags. */
module ProjectForm {
  import opened Outcomes
  import Js
  import Seqs
  import opened Schema

  /** Every tag is non-empty, equal to its own trim, and listed once. */
  ghost predicate ValidTags(tags: seq<string>) {
    Seqs.NoDuplicates(tags) && forall i :: 0 <= i < |tags| ==> tags[i] != "" && Js.Trim(tags[i]) == tags[i]
  }

  /** `addTag`'s new list: the trimmed input appended when it is not blank and not yet listed. */
  function TagsAfterAdd(tags: seq<string>, input: string): seq<string> {
    var t := Js.Trim(input);
    if t != "" && t !in tags then tags + [t] else tags
  }

  /** `addTag`'s new input: cleared when a tag was added, otherwise left as typed. */
  function InputAfterAdd(tags: seq<string>, input: string): string {
    var t := Js.Trim(input);
    if t != "" && t !in tags then "" else input
  }

  /** A blank or already listed input changes nothing; any other input is appended trimmed and
      clears the box; either way a non-blank input's trim is listed afterwards. */
  lemma {:induction false} AddTagFacts(tags: seq<string>, input: string)
    ensures Js.Trim(input) == "" || Js.Trim(input) in tags ==>
              TagsAfterAdd(tags, input) == tags && InputAfterAdd(tags, input) == input
    ensures Js.Trim(input) != "" && Js.Trim(input) !in tags ==>
              TagsAfterAdd(tags, input) == tags + [Js.Trim(input)] && InputAfterAdd(tags, input) == ""
    ensures Js.Trim(input) != "" ==> Js.Trim(input) in TagsAfterAdd(tags, input)
    ensures |TagsAfterAdd(tags, input)| <= |tags| + 1
  {
  }

  /** Adding keeps the tags valid. */
  lemma {:induction false} AddTagKeepsValid(tags: seq<string>, input: string)
    requires ValidTags(tags)
    ensures ValidTags(TagsAfterAdd(tags, input))
  {
    var t := Js.Trim(input);
    if t != "" && t !in tags {
      Js.TrimIdempotent(input);
      Seqs.AppendFreshDistinct(tags, t);
      var r := tags + [t];
      forall i | 0 <= i < |r| ensures r[i] != "" && Js.Trim(r[i]) == r[i] {
        if i < |tags| {
          assert r[i] == tags[i];
        }
      }
    }
  }

  /** Adding the same input twice is adding it once. */
  lemma {:induction false} AddTagIdempotent(tags: seq<string>, input: string)
    ensures TagsAfterAdd(TagsAfterAdd(tags, input), input) == TagsAfterAdd(tags, input)
  {
    AddTagFacts(tags, input);
  }

  /** `removeTag`: `tags.filter(tag => tag !== tagToRemove)`. */
  function TagsAfterRemove(tags: seq<string>, tag: string): (r: seq<string>)
    ensures tag !in r
    ensures forall t :: t != tag ==> (t in r <==> t in tags)
  {
    Seqs.Remove(tags, tag)
  }

  /** Removing keeps the remaining tags in order and keeps them valid. */
  lemma {:induction false} RemoveTagFacts(front: seq<string>, back: seq<string>, tag: string)
    ensures TagsAfterRemove(front + back, tag) == TagsAfterRemove(front, tag) + TagsAfterRemove(back, tag)
    ensures ValidTags(front + back) ==> ValidTags(TagsAfterRemove(front + back, tag))
  {
    Seqs.RemoveAppend(front, back, tag);
    if ValidTags(front + back) {
      Seqs.RemoveKeepsDistinct(front + back, tag);
      var r := TagsAfterRemove(front + back, tag);
      forall i | 0 <= i < |r| ensures r[i] != "" && Js.Trim(r[i]) == r[i] {
        assert r[i] in r;
        var j :| 0 <= j < |front + back| && (front + back)[j] == r[i];
      }
    }
  }

  /** Removing a tag just added gives back the list it was added to. */
  lemma {:induction false} RemoveUndoesAdd(tags: seq<string>, input: string)
    requires Js.Trim(input) !in tags
    ensures TagsAfterRemove(TagsAfterAdd(tags, input), Js.Trim(input)) == tags
  {
    var t := Js.Trim(input);
    if t != "" {
      var r := tags + [t];
      assert r[..|r| - 1] == tags;
    }
  }

  /** The tag input and the tags list of the form (`useState`). */
  class TagEditor {
    var tags: seq<string>
    var newTag: string

    ghost predicate Valid()
      reads this
    {
      ValidTags(tags)
    }

    constructor()
      ensures tags == [] && newTag == "" && Valid()
    {
      tags, newTag := [], "";
    }

    /** `setNewTag(e.target.value)`. */
    method SetNewTag(input: string)
      modifies this
      ensures tags == old(tags) && newTag == input
    {
      newTag := input;
    }

    /** `addTag`. */
    method AddTag()
      requires Valid()
      modifies this
      ensures Valid()
      ensures tags == TagsAfterAdd(old(tags), old(newTag)) && newTag == InputAfterAdd(old(tags), old(newTag))
    {
      AddTagKeepsValid(tags, newTag);
      var t := Js.Trim(newTag);
      if t != "" && t !in tags {
        tags := tags + [t];
        newTag := "";
      }
    }

    /** `removeTag(tagToRemove)`. */
    method RemoveTag(tag: string)
      requires Valid()
      modifies this
      ensures Valid()
      ensures tags == TagsAfterRemove(old(tags), tag) && newTag == old(newTag)
    {
      RemoveTagFacts(tags, [], tag);
      assert tags + [] == tags;
      tags := TagsAfterRemove(tags, tag);
    }
  }

  /** The values of the form's fields; the dates are instants, the ISO text they are sent as
      is not modelled. */
  datatype FormValues = FormValues(data: ProjectData, isActive: bool)

  /** `mutationFn`'s request: the form's fields, both dates as they are, and the editor's tags
      in place of whatever the form's own `projectTags` field holds. */
  function ProjectRequest(values: FormValues, tags: seq<string>): (r: NewProject)
    ensures r.data.projectTags == tags
    ensures r.data.(projectTags := values.data.projectTags) == values.data
    ensures r.isActive == Some(values.isActive)
  {
    NewProject(values.data.(projectTags := tags), Some(values.isActive))
  }

  /** The form's own tag field has no effect on the request. */
  lemma {:induction false} RequestIgnoresFormTags(values: FormValues, other: seq<string>, tags: seq<string>)
    ensures ProjectRequest(values.(data := values.data.(projectTags := other)), tags) == ProjectRequest(values, tags)
  {
  }
}
