/** The text derivations of post creation (src/app/api/posts/route.ts) and of the editor
    (src/app/write/page.tsx): the URL slug of a title, the slug of a tag name, the word count
    of `split(/\s+/)` without empty tokens, and the reading time at 200 words per minute. */
module Text {
  import opened Common

  /** A character a slug keeps (`[a-z0-9]`). */
  predicate IsSlugChar(c: char)
  {
    IsLowerAlpha(c) || IsDigit(c)
  }

  predicate NotSpace(c: char)
  {
    !IsSpace(c)
  }

  /** Drops the leading characters that `keep` rejects: one run matched by the separator. */
  function SkipRun(s: string, keep: char -> bool): (r: string)
    ensures |r| <= |s|
    ensures r == [] || keep(r[0])
  {
    if s != [] && !keep(s[0]) then SkipRun(s[1..], keep) else s
  }

  /** `replace(/[^k]+/g, '-')`: every maximal run of characters that `keep` rejects becomes one '-'. */
  function Collapse(s: string, keep: char -> bool): (r: string)
    ensures forall i :: 0 <= i < |r| ==> keep(r[i]) || r[i] == '-'
    ensures !keep('-') ==> forall i :: 0 <= i < |r| - 1 ==> r[i] != '-' || keep(r[i + 1])
    ensures s != [] && keep(s[0]) ==> r != [] && r[0] == s[0]
    ensures r == [] <==> s == []
    decreases |s|
  {
    if s == [] then []
    else if keep(s[0]) then [s[0]] + Collapse(s[1..], keep)
    else "-" + Collapse(SkipRun(s[1..], keep), keep)
  }

  /** `replace(/(^-|-$)/g, '')`: one leading and one trailing '-' removed. */
  function StripDashes(s: string): string
  {
    var a := if s != [] && s[0] == '-' then s[1..] else s;
    if a != [] && a[|a| - 1] == '-' then a[..|a| - 1] else a
  }

  /** The slug of a post title: lower-cased, runs of other characters turned into '-', edges trimmed. */
  function Slug(title: string): string
  {
    StripDashes(Collapse(Lower(title), IsSlugChar))
  }

  /** The slug of a new tag: lower-cased, runs of whitespace turned into '-'. */
  function TagSlug(name: string): (r: string)
    ensures forall i :: 0 <= i < |r| ==> !IsSpace(r[i])
    ensures r == [] <==> name == []
  {
    Collapse(Lower(name), NotSpace)
  }

  /** A slug consists of [a-z0-9-], has no "--", and neither starts nor ends with '-'. */
  lemma SlugShape(title: string)
    ensures forall i :: 0 <= i < |Slug(title)| ==> IsSlugChar(Slug(title)[i]) || Slug(title)[i] == '-'
    ensures forall i :: 0 <= i < |Slug(title)| - 1 ==> !(Slug(title)[i] == '-' && Slug(title)[i + 1] == '-')
    ensures Slug(title) != [] ==> Slug(title)[0] != '-' && Slug(title)[|Slug(title)| - 1] != '-'
  {
    var c := Collapse(Lower(title), IsSlugChar);
    var a := if c != [] && c[0] == '-' then c[1..] else c;
    assert forall i :: 0 <= i < |a| - 1 ==> a[i] != '-' || IsSlugChar(a[i + 1]);
    assert a != [] ==> a[0] != '-';
  }

  /** Dropping the rejected characters in front does not change what a filter keeping fewer sees. */
  lemma {:induction false} SkipRunKeeps(s: string, keep: char -> bool, q: char -> bool)
    requires forall c :: q(c) ==> keep(c)
    ensures Filter(SkipRun(s, keep), q) == Filter(s, q)
  {
    if s != [] && !keep(s[0]) {
      SkipRunKeeps(s[1..], keep, q);
    }
  }

  /** Collapsing keeps every character that `q` accepts, in order, provided `q` implies `keep`
      and rejects the '-' that replaces runs. */
  lemma {:induction false} CollapseKeeps(s: string, keep: char -> bool, q: char -> bool)
    requires forall c :: q(c) ==> keep(c)
    requires !q('-')
    ensures Filter(Collapse(s, keep), q) == Filter(s, q)
    decreases |s|
  {
    if s != [] {
      if keep(s[0]) {
        CollapseKeeps(s[1..], keep, q);
        assert ([s[0]] + Collapse(s[1..], keep))[1..] == Collapse(s[1..], keep);
      } else {
        var rest := SkipRun(s[1..], keep);
        CollapseKeeps(rest, keep, q);
        SkipRunKeeps(s[1..], keep, q);
        assert ("-" + Collapse(rest, keep))[1..] == Collapse(rest, keep);
      }
    }
  }

  /** A leading '-' is invisible to a filter that rejects '-'. */
  lemma DropFirstDash(s: string, q: char -> bool)
    requires !q('-') && s != [] && s[0] == '-'
    ensures Filter(s[1..], q) == Filter(s, q)
  {
    assert s == [s[0]] + s[1..];
    FilterAppend([s[0]], s[1..], q);
    assert Filter([s[0]], q) == [];
  }

  /** So is a trailing one. */
  lemma DropLastDash(s: string, q: char -> bool)
    requires !q('-') && s != [] && s[|s| - 1] == '-'
    ensures Filter(s[..|s| - 1], q) == Filter(s, q)
  {
    assert s == s[..|s| - 1] + [s[|s| - 1]];
    FilterAppend(s[..|s| - 1], [s[|s| - 1]], q);
    assert Filter([s[|s| - 1]], q) == [];
  }

  lemma StripDashesKeeps(s: string, q: char -> bool)
    requires !q('-')
    ensures Filter(StripDashes(s), q) == Filter(s, q)
  {
    var a := if s != [] && s[0] == '-' then s[1..] else s;
    if s != [] && s[0] == '-' {
      DropFirstDash(s, q);
    }
    assert Filter(a, q) == Filter(s, q);
    if a != [] && a[|a| - 1] == '-' {
      DropLastDash(a, q);
    }
  }

  /** Every letter and digit of the lower-cased title survives in the slug, in order. */
  lemma SlugKeepsLettersAndDigits(title: string)
    ensures Filter(Slug(title), IsSlugChar) == Filter(Lower(title), IsSlugChar)
  {
    CollapseKeeps(Lower(title), IsSlugChar, IsSlugChar);
    StripDashesKeeps(Collapse(Lower(title), IsSlugChar), IsSlugChar);
  }

  predicate NotSpaceOrDash(c: char)
  {
    !IsSpace(c) && c != '-'
  }

  /** A tag slug holds no whitespace, and every other character but '-' of the lower-cased name
      survives in order. */
  lemma TagSlugShape(name: string)
    ensures forall i :: 0 <= i < |TagSlug(name)| ==> !IsSpace(TagSlug(name)[i])
    ensures Filter(TagSlug(name), NotSpaceOrDash) == Filter(Lower(name), NotSpaceOrDash)
  {
    CollapseKeeps(Lower(name), NotSpace, NotSpaceOrDash);
  }

  // ---------------------------------------------------------------- word count

  /** `s.split(/\s+/)`: the pieces between maximal whitespace runs; a leading or trailing run
      yields an empty first or last piece, and "" yields [""]. */
  function SplitSpaces(s: string): (r: seq<string>)
    ensures |r| >= 1
    decreases |s|
  {
    if s == [] then [""]
    else if IsSpace(s[0]) then [""] + SplitSpaces(SkipRun(s[1..], NotSpace))
    else
      var rest := SplitSpaces(s[1..]);
      [[s[0]] + rest[0]] + rest[1..]
  }

  predicate NonEmpty(w: string)
  {
    |w| > 0
  }

  /** `content.split(/\s+/).filter(word => word.length > 0).length`. */
  function WordCount(content: string): nat
  {
    |Filter(SplitSpaces(content), NonEmpty)|
  }

  /** The number of positions where a word starts: a non-space character at the start or after
      a space (`afterSpace` says whether the character before `s` was one). */
  function WordStarts(s: string, afterSpace: bool): nat
  {
    if s == [] then 0
    else (if afterSpace && !IsSpace(s[0]) then 1 else 0) + WordStarts(s[1..], IsSpace(s[0]))
  }

  lemma {:induction false} WordStartsSkipSpaces(s: string)
    ensures WordStarts(SkipRun(s, NotSpace), true) == WordStarts(s, true)
  {
    if s != [] && IsSpace(s[0]) {
      WordStartsSkipSpaces(s[1..]);
    }
  }

  lemma {:induction false} SplitCountsWordStarts(s: string)
    ensures |Filter(SplitSpaces(s), NonEmpty)| == WordStarts(s, true)
    ensures |Filter(SplitSpaces(s)[1..], NonEmpty)| == WordStarts(s, false)
    decreases |s|
  {
    if s != [] {
      var sp := SplitSpaces(s);
      if IsSpace(s[0]) {
        var rest := SkipRun(s[1..], NotSpace);
        SplitCountsWordStarts(rest);
        WordStartsSkipSpaces(s[1..]);
        assert sp[1..] == SplitSpaces(rest);
        assert Filter(sp, NonEmpty) == Filter(sp[1..], NonEmpty);
      } else {
        var rest := SplitSpaces(s[1..]);
        SplitCountsWordStarts(s[1..]);
        assert sp[1..] == rest[1..];
        assert Filter(sp, NonEmpty) == [sp[0]] + Filter(sp[1..], NonEmpty);
      }
    }
  }

  /** The word count is the number of word starts. */
  lemma WordCountIsWordStarts(content: string)
    ensures WordCount(content) == WordStarts(content, true)
  {
    SplitCountsWordStarts(content);
  }

  lemma {:induction false} WordStartsZero(s: string)
    ensures WordStarts(s, true) == 0 <==> forall i :: 0 <= i < |s| ==> IsSpace(s[i])
  {
    if s != [] {
      WordStartsZero(s[1..]);
      assert forall i :: 1 <= i < |s| ==> s[i] == s[1..][i - 1];
    }
  }

  /** Content with no word at all is exactly content made only of whitespace. */
  lemma WordCountZero(content: string)
    ensures WordCount(content) == 0 <==> forall i :: 0 <= i < |content| ==> IsSpace(content[i])
  {
    WordCountIsWordStarts(content);
    WordStartsZero(content);
  }

  const WORDS_PER_MINUTE: int := 200

  /** `Math.ceil(wordCount / 200)`: the fewest whole minutes that cover the words at 200 per minute. */
  function ReadingTime(wordCount: nat): (r: nat)
    ensures (r - 1) * WORDS_PER_MINUTE < wordCount <= r * WORDS_PER_MINUTE
    ensures r == 0 <==> wordCount == 0
  {
    CeilDiv(wordCount, WORDS_PER_MINUTE)
  }
}
