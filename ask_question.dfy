/**
 * The ask-question form (app/questions/ask/page.tsx): a tag list of at most
 * five distinct tags, tag suggestions fetched once the query has two
 * characters, and submit validation before the question is created.
 */
module AskQuestion {

  import opened Wrappers
  import opened Strings
  import opened ApiClient
  import opened AuthService

  const MaxTags := 5
  const MinQueryLength := 2

  /** A suggested tag as the tag search returns it. */
  datatype TagSuggestion = TagSuggestion(id: string, name: string)

  /** The payload of `questionService.createQuestion`. */
  datatype NewQuestion = NewQuestion(title: string, content: string, tags: seq<string>)

  predicate NoDuplicates(s: seq<string>) {
    forall i, j :: 0 <= i < j < |s| ==> s[i] != s[j]
  }

  /** A list without duplicates holds as many distinct tags as it is long. */
  lemma {:induction false} DistinctCount(s: seq<string>)
    requires NoDuplicates(s)
    ensures |set t | t in s| == |s|
  {
    if s != [] {
      DistinctCount(s[1..]);
      assert (set t | t in s) == {s[0]} + (set t | t in s[1..]);
      assert s[0] !in s[1..];
    }
  }

  /** `tags.filter(t => t !== x)`: every element other than `x`, in order. */
  function Without(s: seq<string>, x: string): (r: seq<string>)
    ensures |r| <= |s|
    ensures forall y :: y in r <==> y in s && y != x
    ensures x !in s ==> r == s
  {
    if s == [] then []
    else if s[0] == x then Without(s[1..], x)
    else [s[0]] + Without(s[1..], x)
  }

  /**
   * In a list without duplicates, removing a tag cuts out exactly its one
   * occurrence and keeps the other tags in their order.
   */
  lemma {:induction false} WithoutCutsOut(s: seq<string>, i: nat)
    requires NoDuplicates(s) && i < |s|
    ensures Without(s, s[i]) == s[..i] + s[i + 1..]
  {
    var t := s[1..];
    if i == 0 {
      assert s[0] !in t;
      assert Without(s, s[0]) == Without(t, s[0]) == t;
    } else {
      assert NoDuplicates(t) by {
        forall a, b | 0 <= a < b < |t| ensures t[a] != t[b] {
          assert t[a] == s[a + 1] && t[b] == s[b + 1];
        }
      }
      assert t[i - 1] == s[i] && s[0] != s[i];
      WithoutCutsOut(t, i - 1);
      assert s[..i] == [s[0]] + t[..i - 1];
      assert s[i + 1..] == t[i..];
    }
  }

  /** Cutting one position out of a duplicate-free list leaves it duplicate-free. */
  lemma CutNoDuplicates(s: seq<string>, i: nat)
    requires NoDuplicates(s) && i < |s|
    ensures NoDuplicates(s[..i] + s[i + 1..])
  {
    var r := s[..i] + s[i + 1..];
    assert |r| == |s| - 1;
    forall a, b | 0 <= a < b < |r| ensures r[a] != r[b] {
      var a' := if a < i then a else a + 1;
      var b' := if b < i then b else b + 1;
      assert a' < b' < |s|;
      assert r[a] == s[a'];
      assert r[b] == s[b'];
    }
  }

  /** Removing keeps a duplicate-free list duplicate-free. */
  lemma WithoutNoDuplicates(s: seq<string>, x: string)
    requires NoDuplicates(s)
    ensures NoDuplicates(Without(s, x))
  {
    if x in s {
      var i :| 0 <= i < |s| && s[i] == x;
      WithoutCutsOut(s, i);
      CutNoDuplicates(s, i);
    }
  }

  class AskQuestionPage {
    var title: string
    var content: string
    var tagInput: string
    var selectedTags: seq<string>
    var suggestedTags: seq<TagSuggestion>
    var isLoading: bool
    var isSearchingTags: bool
    var isLoginModalOpen: bool

    /**
     * The tag list invariant: at most five tags, none twice, so the list
     * holds as many distinct tags as it is long.
     */
    predicate Valid(): (ok: bool)
      reads this
      ensures ok ==> |set t | t in selectedTags| == |selectedTags| <= MaxTags
    {
      if |selectedTags| <= MaxTags && NoDuplicates(selectedTags) then
        DistinctCount(selectedTags);
        true
      else false
    }

    constructor ()
      ensures Valid()
      ensures title == "" && content == "" && tagInput == ""
      ensures selectedTags == [] && suggestedTags == []
      ensures !isLoading && !isSearchingTags && !isLoginModalOpen
    {
      title, content, tagInput := "", "", "";
      selectedTags, suggestedTags := [], [];
      isLoading, isSearchingTags, isLoginModalOpen := false, false, false;
    }

    /**
     * `handleTagSearch`: the input always shows the query. A query shorter than
     * two characters clears the suggestions without searching (`searched` is
     * false). Otherwise the search runs; its results replace the suggestions,
     * a failure keeps the previous ones, and the searching flag ends false.
     */
    method HandleTagSearch(query: string, outcome: Result<seq<TagSuggestion>, Error>) returns (searched: bool)
      requires Valid()
      modifies this
      ensures Valid()
      ensures tagInput == query
      ensures searched <==> |query| >= MinQueryLength
      ensures !searched ==> suggestedTags == [] && isSearchingTags == old(isSearchingTags)
      ensures searched ==> !isSearchingTags
      ensures searched && outcome.Ok? ==> suggestedTags == outcome.value
      ensures searched && outcome.Err? ==> suggestedTags == old(suggestedTags)
      ensures selectedTags == old(selectedTags) && title == old(title) && content == old(content)
      ensures isLoading == old(isLoading) && isLoginModalOpen == old(isLoginModalOpen)
    {
      tagInput := query;
      if |query| < MinQueryLength {
        suggestedTags := [];
        return false;
      }
      searched := true;
      isSearchingTags := true;
      if outcome.Ok? {
        suggestedTags := outcome.value;
      }
      isSearchingTags := false;
    }

    /**
     * `addTag`: a tag already selected, or a sixth tag, changes nothing.
     * Otherwise the tag goes at the end, the input is cleared and the
     * suggestions are emptied.
     */
    method AddTag(tag: string) returns (added: bool)
      requires Valid()
      modifies this
      ensures Valid()
      ensures added <==> tag !in old(selectedTags) && |old(selectedTags)| < MaxTags
      ensures !added ==> selectedTags == old(selectedTags) && tagInput == old(tagInput) && suggestedTags == old(suggestedTags)
      ensures added ==> selectedTags == old(selectedTags) + [tag] && tagInput == "" && suggestedTags == []
      ensures title == old(title) && content == old(content)
      ensures isLoading == old(isLoading) && isSearchingTags == old(isSearchingTags) && isLoginModalOpen == old(isLoginModalOpen)
    {
      if tag in selectedTags || |selectedTags| >= MaxTags {
        return false;
      }
      selectedTags := selectedTags + [tag];
      tagInput := "";
      suggestedTags := [];
      added := true;
    }

    /** `removeTag`: the tag is gone and the others keep their order. */
    method RemoveTag(tag: string)
      requires Valid()
      modifies this
      ensures Valid()
      ensures selectedTags == Without(old(selectedTags), tag)
      ensures forall i :: 0 <= i < |old(selectedTags)| && old(selectedTags)[i] == tag ==>
        selectedTags == old(selectedTags)[..i] + old(selectedTags)[i + 1..]
      ensures title == old(title) && content == old(content) && tagInput == old(tagInput)
      ensures suggestedTags == old(suggestedTags)
      ensures isLoading == old(isLoading) && isSearchingTags == old(isSearchingTags) && isLoginModalOpen == old(isLoginModalOpen)
    {
      WithoutNoDuplicates(selectedTags, tag);
      forall i | 0 <= i < |selectedTags| && selectedTags[i] == tag
        ensures Without(selectedTags, tag) == selectedTags[..i] + selectedTags[i + 1..]
      {
        WithoutCutsOut(selectedTags, i);
      }
      selectedTags := Without(selectedTags, tag);
    }

    /**
     * `handleSubmit`. Without a signed-in user the login dialog opens and
     * nothing is created. A title or body that is blank after trimming stops
     * the submit too. Otherwise `createQuestion` is called (`created`) with
     * the untrimmed title and body and the selected tags; on success the
     * browser is sent to the new question. Loading ends false.
     */
    method HandleSubmit(user: Option<User>, outcome: Result<string, Error>)
      returns (created: Option<NewQuestion>, redirect: Option<string>)
      requires Valid()
      modifies this
      ensures Valid()
      ensures user.None? ==> isLoginModalOpen && created == None
      ensures user.Some? ==> isLoginModalOpen == old(isLoginModalOpen)
      ensures created.Some? <==> user.Some? && !IsBlank(title) && !IsBlank(content)
      ensures created.Some? ==> created.value == NewQuestion(title, content, selectedTags)
      ensures created.Some? ==> !isLoading
      ensures created.None? ==> isLoading == old(isLoading)
      ensures redirect.Some? <==> created.Some? && outcome.Ok?
      ensures redirect.Some? ==> redirect.value == "/questions/" + outcome.value
      ensures title == old(title) && content == old(content) && selectedTags == old(selectedTags)
      ensures tagInput == old(tagInput) && suggestedTags == old(suggestedTags) && isSearchingTags == old(isSearchingTags)
    {
      created, redirect := None, None;
      if user.None? {
        isLoginModalOpen := true;
        return;
      }
      if IsBlank(title) || IsBlank(content) {
        return;
      }
      isLoading := true;
      created := Some(NewQuestion(title, content, selectedTags));
      if outcome.Ok? {
        redirect := Some("/questions/" + outcome.value);
      }
      isLoading := false;
    }
  }

  /** The submit check: a title or body of white space only never reaches `createQuestion`. */
  lemma WhitespaceOnlyBlocks(s: string)
    requires forall i :: 0 <= i < |s| ==> s[i] == ' ' || s[i] == '\n' || s[i] == '\t'
    ensures IsBlank(s)
  {
  }

  /** A field with any character outside white space passes the submit check. */
  lemma VisibleCharacterPasses(s: string, i: nat)
    requires i < |s| && !IsJsWhitespace(s[i])
    ensures !IsBlank(s)
  {
  }
}
