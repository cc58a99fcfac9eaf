/** The tag search on another user's profile screen.

    The search box always holds a string that begins with '#'. Once something
    follows the '#', the rest of the box is matched, ignoring case, against
    the tags of each of the user's posts; a post stays on screen when one of
    its tags contains the query. With only the '#' in the box every post is
    shown. */
module TagSearch {
  import Seqs
  import Text

  /** A post is either a personal-record announcement or a live lift. */
  datatype PostKind = Pr | Live

  datatype UserPost = UserPost(id: int, kind: PostKind, content: string, tags: seq<string>)

  const Hash: char := '#'

  /** The box holds just "#" when the screen opens. */
  const Initial: string := [Hash]

  predicate HasHashPrefix(s: string) {
    |s| > 0 && s[0] == Hash
  }

  /** What the box holds after the user edits it to `text`: the '#' is put
      back in front whenever the edit removed it. */
  function Normalise(text: string): (r: string)
    ensures HasHashPrefix(r)
    ensures HasHashPrefix(text) ==> r == text
    ensures !HasHashPrefix(text) ==> |r| == |text| + 1 && r[1..] == text
  {
    if HasHashPrefix(text) then text else [Hash] + text
  }

  /** What the user can do to the search box. */
  datatype Action =
    | Edit(text: string)  // the text field reports a new value
    | Clear               // the clear button is pressed

  /** The clear button is only on screen while something follows the '#'. */
  predicate ClearShown(state: string) {
    |state| > 1
  }

  /** One transition of the search box. A press on a clear button that is
      not shown cannot happen, so it leaves the box unchanged. */
  function Step(state: string, a: Action): (r: string)
    ensures HasHashPrefix(state) ==> HasHashPrefix(r)
    ensures a.Clear? && HasHashPrefix(state) ==> r == Initial
    ensures a.Edit? ==> HasHashPrefix(r) && (HasHashPrefix(a.text) ==> r == a.text)
    ensures a.Edit? && !HasHashPrefix(a.text) ==> r == [Hash] + a.text
  {
    match a
    case Edit(text) => Normalise(text)
    case Clear => if ClearShown(state) then Initial else state
  }

  /** The box after the screen opened and the user performed `actions`. */
  function Run(actions: seq<Action>): (r: string)
    ensures HasHashPrefix(r)
    decreases |actions|
  {
    if |actions| == 0 then Initial
    else Step(Run(actions[..|actions| - 1]), actions[|actions| - 1])
  }

  /** The search is applied only once something follows the first character. */
  predicate IsActive(search: string) {
    |search| > 1
  }

  /** The search box without its first character (JavaScript's `slice(1)`). */
  function Query(search: string): (q: string)
    ensures |search| > 0 ==> [search[0]] + q == search
    ensures |search| == 0 ==> q == ""
  {
    if |search| == 0 then "" else search[1..]
  }

  /** A tag matches when, ignoring case, the query occurs within it. */
  predicate TagMatches(tag: string, query: string) {
    Text.Contains(Text.Lower(tag), Text.Lower(query))
  }

  /** Some tag of the post matches the query. */
  predicate HasMatchingTag(p: UserPost, query: string) {
    exists t :: t in p.tags && TagMatches(t, query)
  }

  /** The posts listed under the search box holding `search`. */
  function FilterByTag(posts: seq<UserPost>, search: string): (r: seq<UserPost>)
    ensures !IsActive(search) ==> r == posts
    ensures IsActive(search) ==>
      forall p :: p in r <==> p in posts && HasMatchingTag(p, Query(search))
    ensures IsActive(search) ==>
      forall p :: HasMatchingTag(p, Query(search)) ==> multiset(r)[p] == multiset(posts)[p]
    ensures |r| <= |posts|
    ensures Seqs.IsSubsequence(r, posts)
  {
    if IsActive(search) then
      Seqs.FilterMultiset(posts, p => HasMatchingTag(p, Query(search)));
      Seqs.Filter(posts, p => HasMatchingTag(p, Query(search)))
    else
      Seqs.SubsequenceReflexive(posts);
      posts
  }

  /** The listed posts are pinned down by what they must satisfy: any
      subsequence of the user's posts made only of matching posts, that holds
      every matching post as often as the user's posts do, is the list shown. */
  lemma FilterByTagUnique(posts: seq<UserPost>, search: string, shown: seq<UserPost>)
    requires IsActive(search)
    requires Seqs.IsSubsequence(shown, posts)
    requires forall p :: p in shown ==> HasMatchingTag(p, Query(search))
    requires forall p :: HasMatchingTag(p, Query(search)) ==> multiset(shown)[p] == multiset(posts)[p]
    ensures shown == FilterByTag(posts, search)
  {
    Seqs.FilterUnique(posts, p => HasMatchingTag(p, Query(search)), shown);
  }

  /** Editing to a value the box already shows changes nothing. */
  lemma NormaliseIdempotent(text: string)
    ensures Normalise(Normalise(text)) == Normalise(text)
  {
  }

  /** A box that starts with '#' is inactive exactly when it holds only the '#'. */
  lemma InactiveOnlyWhenBare(search: string)
    requires HasHashPrefix(search)
    ensures !IsActive(search) <==> search == Initial
  {
  }

  /** After the clear button, every post is listed again. */
  lemma ClearShowsAllPosts(posts: seq<UserPost>, actions: seq<Action>)
    ensures FilterByTag(posts, Run(actions + [Clear])) == posts
  {
    assert (actions + [Clear])[..|actions|] == actions;
  }

  /** While the search is active, a post without tags is never listed. */
  lemma UntaggedPostsHidden(posts: seq<UserPost>, search: string, p: UserPost)
    requires IsActive(search)
    requires p.tags == []
    ensures p !in FilterByTag(posts, search)
  {
  }

  /** Searching the listed posts again with the same box changes nothing. */
  lemma FilterByTagIdempotent(posts: seq<UserPost>, search: string)
    ensures FilterByTag(FilterByTag(posts, search), search) == FilterByTag(posts, search)
  {
    if IsActive(search) {
      Seqs.FilterIdempotent(posts, p => HasMatchingTag(p, Query(search)));
    }
  }

  /** The case of the tags and of the query does not matter. */
  lemma TagMatchesIgnoresCase(tag: string, query: string)
    ensures TagMatches(tag, query) == TagMatches(Text.Lower(tag), query)
    ensures TagMatches(tag, query) == TagMatches(tag, Text.Lower(query))
  {
    Text.LowerIsLowerCase(tag);
    Text.LowerIsLowerCase(query);
  }

  /** Typing the query in any mix of cases lists the same posts. */
  lemma {:induction false} FilterByTagIgnoresCase(posts: seq<UserPost>, search: string)
    requires |search| > 0
    ensures FilterByTag(posts, [search[0]] + Text.Lower(Query(search))) == FilterByTag(posts, search)
  {
    var lowered := [search[0]] + Text.Lower(Query(search));
    assert Query(lowered) == Text.Lower(Query(search));
    assert |lowered| == |search|;
    if IsActive(search) {
      forall p | p in posts
        ensures HasMatchingTag(p, Query(lowered)) == HasMatchingTag(p, Query(search))
      {
        forall t | t in p.tags
          ensures TagMatches(t, Query(lowered)) == TagMatches(t, Query(search))
        {
          TagMatchesIgnoresCase(t, Query(search));
        }
      }
      Seqs.FilterCongruent(posts,
        p => HasMatchingTag(p, Query(lowered)),
        p => HasMatchingTag(p, Query(search)));
    }
  }

  /** Whatever the user does, the listed posts are taken from the user's
      posts in their original order, and while only the '#' is in the box
      they are all of the user's posts. */
  lemma ListedPostsFollowTheBox(posts: seq<UserPost>, actions: seq<Action>)
    ensures Seqs.IsSubsequence(FilterByTag(posts, Run(actions)), posts)
    ensures Run(actions) == Initial ==> FilterByTag(posts, Run(actions)) == posts
    ensures Run(actions) != Initial ==> IsActive(Run(actions))
  {
    InactiveOnlyWhenBare(Run(actions));
  }
}
