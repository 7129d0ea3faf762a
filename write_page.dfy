/** The post editor's state (src/app/write/page.tsx): the content with its derived reading time,
    the tag list and the tag input, changed by the reading-time effect, the add and remove
    handlers and the AI assistant's tag callback. */
module WritePage {
  import opened Common
  import opened Text

  class Editor {
    var content: string
    var readingTime: nat
    var tags: seq<string>
    var tagInput: string

    /** The reading time follows the content, and no tag is listed twice. */
    ghost predicate Valid()
      reads this
    {
      readingTime == ReadingTime(WordCount(content)) && NoDuplicates(tags)
    }

    constructor ()
      ensures Valid()
      ensures content == "" && readingTime == 0 && tags == [] && tagInput == ""
    {
      content, readingTime, tags, tagInput := "", 0, [], "";
    }

    /** `setContent(value)` followed by the reading-time effect on `[content]`. */
    method SetContent(value: string)
      requires Valid()
      modifies this
      ensures Valid()
      ensures content == value && readingTime == ReadingTime(WordCount(value))
      ensures tags == old(tags) && tagInput == old(tagInput)
    {
      content := value;
      readingTime := ReadingTime(WordCount(content));
    }

    method SetTagInput(value: string)
      requires Valid()
      modifies this
      ensures Valid()
      ensures tagInput == value && tags == old(tags) && content == old(content) && readingTime == old(readingTime)
    {
      tagInput := value;
    }

    /** `handleAddTag()`: a non-empty trimmed input that is not yet a tag is appended and the input
        cleared; otherwise nothing changes. */
    method AddTag()
      requires Valid()
      modifies this
      ensures Valid()
      ensures Trim(old(tagInput)) != "" && Trim(old(tagInput)) !in old(tags) ==>
                tags == old(tags) + [Trim(old(tagInput))] && tagInput == ""
      ensures !(Trim(old(tagInput)) != "" && Trim(old(tagInput)) !in old(tags)) ==>
                tags == old(tags) && tagInput == old(tagInput)
      ensures content == old(content) && readingTime == old(readingTime)
    {
      var trimmed := Trim(tagInput);
      if trimmed != "" && trimmed !in tags {
        AppendNoDuplicates(tags, trimmed);
        tags := tags + [trimmed];
        tagInput := "";
      }
    }

    /** `handleRemoveTag(tag)`: every occurrence of the tag goes, the others stay in order. */
    method RemoveTag(tag: string)
      requires Valid()
      modifies this
      ensures Valid()
      ensures tags == RemoveAll(old(tags), tag)
      ensures tag !in tags && forall t :: t != tag ==> (t in tags <==> t in old(tags))
      ensures tagInput == old(tagInput) && content == old(content) && readingTime == old(readingTime)
    {
      RemoveAllNoDuplicates(tags, tag);
      tags := RemoveAll(tags, tag);
    }

    /** `onTagsGenerate(generated)`: for an array, the tags become `[...new Set([...tags, ...generated])]`;
        anything else (None) is ignored. */
    method MergeGeneratedTags(generated: Option<seq<string>>)
      requires Valid()
      modifies this
      ensures Valid()
      ensures generated.Some? ==> tags == Dedup(old(tags) + generated.value)
      ensures generated.Some? ==> old(tags) <= tags && forall t :: t in tags <==> t in old(tags) || t in generated.value
      ensures generated.None? ==> tags == old(tags)
      ensures tagInput == old(tagInput) && content == old(content) && readingTime == old(readingTime)
    {
      if generated.Some? {
        DedupKeepsDistinctPrefix(tags, generated.value);
        tags := Dedup(tags + generated.value);
      }
    }
  }

  /** Empty or all-whitespace content reads in 0 minutes; any word makes it at least 1. */
  lemma ReadingTimeOfBlankContent(content: string)
    ensures ReadingTime(WordCount(content)) == 0 <==> forall i :: 0 <= i < |content| ==> IsSpace(content[i])
  {
    WordCountZero(content);
  }
}
