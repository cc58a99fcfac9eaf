/** The lift-type filter on the user's own profile screen: a dropdown picks a
    lift, and the grid of posts shows only the posts of that lift, or every
    post when nothing or "All Lifts" is picked. The screen carries a fixed
    sample of twenty posts. */
module LiftFilter {
  import Seqs

  datatype LiftPost = LiftPost(id: int, lift: string, content: string)

  /** The dropdown value: nothing picked yet (`null`) or one item's value. */
  datatype Selection = Unset | Chosen(value: string)

  /** A dropdown entry; `title` is the item's label (`label` is a reserved word). */
  datatype DropdownItem = DropdownItem(title: string, value: string)

  /** The value of the "All Lifts" item. */
  const AllLifts: string := "all"

  /** The dropdown's items, in the order they are offered. */
  const Items: seq<DropdownItem> := [
    DropdownItem("All Lifts", AllLifts),
    DropdownItem("Squat", "squat"),
    DropdownItem("Bench", "bench"),
    DropdownItem("Deadlift", "deadlift"),
    DropdownItem("Hang Clean", "hangclean")
  ]

  /** The selection under which the filter is off. */
  predicate ShowsAll(sel: Selection) {
    sel == Unset || sel == Chosen(AllLifts)
  }

  /** The posts shown in the grid under the dropdown value `sel`. */
  function FilterByLift(posts: seq<LiftPost>, sel: Selection): (r: seq<LiftPost>)
    ensures ShowsAll(sel) ==> r == posts
    ensures !ShowsAll(sel) ==> forall p :: p in r <==> p in posts && p.lift == sel.value
    ensures !ShowsAll(sel) ==>
      forall p: LiftPost :: p.lift == sel.value ==> multiset(r)[p] == multiset(posts)[p]
    ensures |r| <= |posts|
    ensures Seqs.IsSubsequence(r, posts)
  {
    if ShowsAll(sel) then
      Seqs.SubsequenceReflexive(posts);
      posts
    else
      Seqs.FilterMultiset(posts, (p: LiftPost) => p.lift == sel.value);
      Seqs.Filter(posts, (p: LiftPost) => p.lift == sel.value)
  }

  /** Under a lift other than "all", the grid is the only subsequence of the
      posts that holds just posts of that lift and every one of them. */
  lemma FilterByLiftUnique(posts: seq<LiftPost>, v: string, shown: seq<LiftPost>)
    requires v != AllLifts
    requires Seqs.IsSubsequence(shown, posts)
    requires forall p :: p in shown ==> p.lift == v
    requires forall p: LiftPost :: p.lift == v ==> multiset(shown)[p] == multiset(posts)[p]
    ensures shown == FilterByLift(posts, Chosen(v))
  {
    Seqs.FilterUnique(posts, (p: LiftPost) => p.lift == v, shown);
  }

  /** Filtering the shown posts again by the same value changes nothing. */
  lemma FilterByLiftIdempotent(posts: seq<LiftPost>, sel: Selection)
    ensures FilterByLift(FilterByLift(posts, sel), sel) == FilterByLift(posts, sel)
  {
    if !ShowsAll(sel) {
      Seqs.FilterIdempotent(posts, (p: LiftPost) => p.lift == sel.value);
    }
  }

  /** The twenty sample posts, most recent (id 20) first. */
  const SamplePosts: seq<LiftPost> := [
    LiftPost(20, "squat", "Another big PR attempt: 400 for a single!"),
    LiftPost(19, "bench", "Narrow grip bench: 185 x 8 reps."),
    LiftPost(18, "deadlift", "Sumo deadlift day: 405 for a triple."),
    LiftPost(17, "hangclean", "Working technique at 135, focusing on form."),
    LiftPost(16, "squat", "Deload week: 225 for sets of 5."),
    LiftPost(15, "bench", "Incline bench day, repping 155."),
    LiftPost(14, "deadlift", "Paused deadlifts at 315—killer on the core!"),
    LiftPost(13, "hangclean", "Cleans from the hang, 5 sets of 3 at 135."),
    LiftPost(12, "squat", "Speed work at 185, 8x3 focusing on explosiveness."),
    LiftPost(11, "bench", "Flat bench, 205 for 3 sets of 6."),
    LiftPost(10, "deadlift", "Pulled 435 for a double—feeling strong!"),
    LiftPost(9, "squat", "New PR! 365lbs for a single."),
    LiftPost(8, "bench", "Benched 245 today, feeling strong!"),
    LiftPost(7, "deadlift", "Pulled 455 for 2 reps. PR!"),
    LiftPost(6, "hangclean", "Hit 200lbs clean today!"),
    LiftPost(5, "squat", "5x5 with 275lbs. Solid session."),
    LiftPost(4, "bench", "3 sets of 10 at 185lbs."),
    LiftPost(3, "deadlift", "Worked up to 405 for triples."),
    LiftPost(2, "hangclean", "Practiced form at 155lbs."),
    LiftPost(1, "squat", "High volume day with 225lbs.")
  ]

  /** The lift of each post, in order. */
  function Lifts(posts: seq<LiftPost>): (r: seq<string>)
    ensures |r| == |posts|
    ensures forall i :: 0 <= i < |posts| ==> r[i] == posts[i].lift
  {
    seq(|posts|, i requires 0 <= i < |posts| => posts[i].lift)
  }

  /** The lifts of a non-empty list: the first post's lift, then the rest's. */
  lemma LiftsCons(posts: seq<LiftPost>)
    requires |posts| > 0
    ensures Lifts(posts) == [posts[0].lift] + Lifts(posts[1..])
  {
  }

  /** Under a lift other than "all", the grid holds as many posts as there
      are posts of that lift. */
  lemma {:induction false} FilterByLiftCount(posts: seq<LiftPost>, v: string)
    requires v != AllLifts
    ensures |FilterByLift(posts, Chosen(v))| == multiset(Lifts(posts))[v]
    decreases |posts|
  {
    if |posts| > 0 {
      var keep := (p: LiftPost) => p.lift == v;
      FilterByLiftCount(posts[1..], v);
      LiftsCons(posts);
      assert multiset(Lifts(posts))[v] == (if keep(posts[0]) then 1 else 0) + multiset(Lifts(posts[1..]))[v];
    }
  }

  /** The sample's ids run from 20 down to 1, so they are distinct and the
      most recent post comes first. */
  lemma SampleIdsDescending()
    ensures |SamplePosts| == 20
    ensures forall i :: 0 <= i < |SamplePosts| ==> SamplePosts[i].id == 20 - i
    ensures forall i, j :: 0 <= i < j < |SamplePosts| ==> SamplePosts[i].id > SamplePosts[j].id
  {
  }

  /** The lift column of `SamplePosts`, written out as a literal so that the
      counts below can be read off it; `SampleLifts` proves the two agree. */
  const SampleLiftList: seq<string> := [
    "squat",
    "bench",
    "deadlift",
    "hangclean",
    "squat",
    "bench",
    "deadlift",
    "hangclean",
    "squat",
    "bench",
    "deadlift",
    "squat",
    "bench",
    "deadlift",
    "hangclean",
    "squat",
    "bench",
    "deadlift",
    "hangclean",
    "squat"
    ]

  /** `SampleLiftList` is exactly the lift column of `SamplePosts`. */
  lemma SampleLifts()
    ensures Lifts(SamplePosts) == SampleLiftList
  {
  }

  /** The lifts the dropdown offers besides "All Lifts". */
  const LiftValues: seq<string> := ["squat", "bench", "deadlift", "hangclean"]

  /** The dropdown offers "All Lifts" first and then exactly the lift values. */
  lemma DropdownOffersLifts()
    ensures Items[0].value == AllLifts
    ensures AllLifts !in LiftValues
    ensures |Items| == |LiftValues| + 1
    ensures forall i :: 0 <= i < |LiftValues| ==> Items[i + 1].value == LiftValues[i]
  {
  }

  /** Every sample post is of one of the lifts the dropdown offers, and so
      lies in the grid filtered by its own lift. */
  lemma SampleLiftsOffered()
    ensures forall p :: p in SamplePosts ==> p.lift in LiftValues
    ensures forall p :: p in SamplePosts ==> p in FilterByLift(SamplePosts, Chosen(p.lift))
  {
    SampleLifts();
    assert forall p :: p in SamplePosts ==> p.lift in SampleLiftList;
    assert forall v :: v in SampleLiftList ==> v in LiftValues;
    assert AllLifts !in LiftValues;
  }

  /** How often squat and bench occur in the sample. */
  lemma SampleTallyUpper()
    ensures multiset(SampleLiftList)["squat"] == 6
    ensures multiset(SampleLiftList)["bench"] == 5
  {
  }

  /** How often deadlift and hang clean occur in the sample. */
  lemma SampleTallyLower()
    ensures multiset(SampleLiftList)["deadlift"] == 5
    ensures multiset(SampleLiftList)["hangclean"] == 4
  {
  }

  /** The number of sample posts shown under each lift: 6 squat, 5 bench,
      5 deadlift and 4 hang-clean posts, which together are all 20. */
  lemma SampleCounts()
    ensures |FilterByLift(SamplePosts, Chosen("squat"))| == 6
    ensures |FilterByLift(SamplePosts, Chosen("bench"))| == 5
    ensures |FilterByLift(SamplePosts, Chosen("deadlift"))| == 5
    ensures |FilterByLift(SamplePosts, Chosen("hangclean"))| == 4
    ensures |FilterByLift(SamplePosts, Chosen("squat"))| + |FilterByLift(SamplePosts, Chosen("bench"))|
          + |FilterByLift(SamplePosts, Chosen("deadlift"))| + |FilterByLift(SamplePosts, Chosen("hangclean"))|
         == |SamplePosts|
  {
    SampleLifts();
    SampleTallyUpper();
    SampleTallyLower();
    FilterByLiftCount(SamplePosts, "squat");
    FilterByLiftCount(SamplePosts, "bench");
    FilterByLiftCount(SamplePosts, "deadlift");
    FilterByLiftCount(SamplePosts, "hangclean");
  }
}
