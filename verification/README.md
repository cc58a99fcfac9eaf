# Post filtering in the Lifting Lads client

The Lifting Lads mobile client shows lists of workout posts on two profile
screens and narrows those lists on the device:

- **Tag search** on another user's profile (`app/user-profile.tsx`). The
  search box always begins with `#`. It opens as `#`, an edit that does not
  begin with `#` gets one put in front, and the clear button resets it to
  `#`. Once something follows the `#`, that text is matched against each post's tags, ignoring
  case. A post is listed when one of its tags contains the query. With only
  the `#` in the box, every post is listed.
- **Lift filter** on the user's own profile (`app/profile.tsx`). A dropdown
  picks a lift type. Nothing picked (`null`) or "All Lifts" (`'all'`) shows
  every post. Any other value shows exactly the posts of that type. The
  screen carries a fixed sample of twenty posts.

The model is four Dafny modules:

- `Seqs` (`seqs.dfy`): `Array.prototype.filter` as `Filter`, and the
  subsequence relation that says "order kept, nothing invented". `Filter` is
  also characterised independently: it is the only subsequence that keeps
  exactly the passing elements, each as often as the input holds it.
- `Text` (`text.dfy`): `toLowerCase` on ASCII letters (`LowerChar`, `Lower`)
  and `includes` (`Contains`), the latter proved equal to "occurs at some
  index".
- `TagSearch` (`tag_search.dfy`): the post record, the search-box state
  machine (`Normalise`, `Step`, `Run`) and the tag filter `FilterByTag`.
- `LiftFilter` (`lift_filter.dfy`): the dropdown, `FilterByLift` and the
  twenty-post sample with its counts.

User actions on the search box are a sequence of `Action`s. `Edit(text)` is
what the text field reports. `Clear` is a press of the clear button. The
button is only rendered while the box holds more than the `#`, so a `Clear`
on a bare box leaves it unchanged.

## Model

| member | source | states |
|---|---|---|
| Seqs.Filter | app/profile.tsx:52 | The result keeps exactly the elements of the input that pass the test, is no longer than the input, and is a subsequence of it, so order is kept. |
| Seqs.FilterMultiset | app/user-profile.tsx:93-95 | Each passing element occurs in the result as often as in the input. Failing elements do not occur at all. |
| Seqs.FilterUnique | app/profile.tsx:52 | The only subsequence of the input that holds just passing elements, each as often as the input, is the filter's result. |
| Seqs.FilterIdempotent | app/profile.tsx:49-52 | Filtering a filtered list again with the same test changes nothing. |
| Seqs.FilterKeepsAll | app/user-profile.tsx:93 | When every element passes, the filter returns the input unchanged. |
| Seqs.FilterCongruent | app/user-profile.tsx:93-94 | Two tests that agree on every element give the same filtered list. |
| Seqs.SubsequenceMultiset | app/user-profile.tsx:93 | A subsequence holds no element more often than its source. |
| Text.LowerChar | app/user-profile.tsx:94 | Lowering a character leaves no ASCII capital. Non-capitals are unchanged. A capital maps to the lower-case letter at the same offset. |
| Text.Lower | app/user-profile.tsx:94 | Lowering keeps the length and lowers each character in place. |
| Text.LowerIsLowerCase | app/user-profile.tsx:94 | A lowered string has no capitals, and lowering it again changes nothing. |
| Text.Contains | app/user-profile.tsx:94 | `includes` holds exactly when the query occurs in the string at some index. |
| Text.ContainsEmpty | app/user-profile.tsx:94 | The empty query is found in every string. |
| TagSearch.Normalise | app/user-profile.tsx:164 | The result always begins with `#`, also for empty input. Input that begins with `#` is kept. Otherwise the input follows one added `#`. |
| TagSearch.NormaliseIdempotent | app/user-profile.tsx:164 | Normalising a normalised value changes nothing. |
| TagSearch.Step | app/user-profile.tsx:163-170 | Each edit and each clear keeps the `#` prefix. A clear on a prefixed box yields exactly `#`. An edit that already begins with `#` is taken as typed; any other edit gets one `#` put in front. |
| TagSearch.Run | app/user-profile.tsx:40-170 | From the opening `#`, every sequence of edits and clears leaves a box that begins with `#`. |
| TagSearch.Query | app/user-profile.tsx:94 | The query is the box without its first character: that character followed by the query gives back the box. |
| TagSearch.FilterByTag | app/user-profile.tsx:92-96 | With one character or less in the box, the posts are listed unchanged. Otherwise a post is listed exactly when one of its tags contains the query, ignoring case. Every such post is listed as often as it occurs. The list is a subsequence of the posts. |
| TagSearch.FilterByTagUnique | app/user-profile.tsx:92-95 | With the search active, the listed posts are the only order-keeping selection that holds just matching posts and every one of them. |
| TagSearch.InactiveOnlyWhenBare | app/user-profile.tsx:92-96 | For a box that begins with `#`, the search is off exactly when the box holds only `#`. |
| TagSearch.ClearShowsAllPosts | app/user-profile.tsx:169-170 | After any actions followed by a clear, every post is listed again. |
| TagSearch.UntaggedPostsHidden | app/user-profile.tsx:94 | While the search is active, a post with no tags is never listed. |
| TagSearch.FilterByTagIdempotent | app/user-profile.tsx:92-96 | Searching the listed posts again with the same box changes nothing. |
| TagSearch.TagMatchesIgnoresCase | app/user-profile.tsx:94 | Lowering the tag or the query first does not change whether the tag matches. |
| TagSearch.FilterByTagIgnoresCase | app/user-profile.tsx:94 | Typing the query in any mix of cases lists the same posts. |
| TagSearch.ListedPostsFollowTheBox | app/user-profile.tsx:92-96 | After any actions, the listed posts are a subsequence of the posts. A bare `#` lists every post, and any other box has the search active. |
| LiftFilter.FilterByLift | app/profile.tsx:49-52 | `null` or `'all'` shows the posts unchanged. Any other value shows exactly the posts of that type, each as often as it occurs, in original order. |
| LiftFilter.FilterByLiftUnique | app/profile.tsx:52 | For a lift other than `'all'`, the shown grid is the only order-keeping selection that holds just posts of that lift and every one of them. |
| LiftFilter.FilterByLiftIdempotent | app/profile.tsx:49-52 | Filtering the shown posts again by the same value changes nothing. |
| LiftFilter.FilterByLiftCount | app/profile.tsx:52 | For a lift other than `'all'`, the grid holds as many posts as the list holds posts of that lift. |
| LiftFilter.SampleIdsDescending | app/profile.tsx:24-46 | The sample has 20 posts with ids 20 down to 1 in order. The ids are strictly decreasing, hence distinct, and the most recent post comes first. |
| LiftFilter.SampleLifts | app/profile.tsx:25-46 | The lift types of the sample posts, in order. |
| LiftFilter.DropdownOffersLifts | app/profile.tsx:16-22 | The dropdown offers "All Lifts" first, then the four lift values, none of them `'all'`. |
| LiftFilter.SampleLiftsOffered | app/profile.tsx:16-46 | Every sample post's type is one of the offered lifts. Each post appears in the grid filtered by its own type. |
| LiftFilter.SampleTallyUpper | app/profile.tsx:25-46 | The sample holds 6 squat and 5 bench posts. |
| LiftFilter.SampleTallyLower | app/profile.tsx:25-46 | The sample holds 5 deadlift and 4 hang-clean posts. |
| LiftFilter.SampleCounts | app/profile.tsx:25-52 | On the sample, the filters show 6 squat, 5 bench, 5 deadlift and 4 hang-clean posts. Together these are all 20 posts. |

## Left out

- Fetching the viewed user (`app/user-profile.tsx:60-73`) and the loading and "User not found" states. The model takes the user's posts as a parameter.
- The friend and lifting-lad requests (`app/user-profile.tsx:98-136`). These are HTTP calls whose outcome the server decides.
- Rendering: the list, the post boxes, tag chips, the two-column grid, and the `keyExtractor` keyed on post id. The `PostKind` of a post only picks the post box's style and its heading label, so no filter reads it.
- Text.LowerChar, Text.Lower: only ASCII capitals are lowered. JavaScript's `toLowerCase` also lowers non-ASCII letters by the full Unicode case mapping, and some of those mappings change a string's length.
- Text.Contains: strings are sequences of characters. JavaScript compares UTF-16 code units, which differs only for characters outside the Basic Multilingual Plane.
- The dropdown's open/closed state (`app/profile.tsx:12`) and the `setItems` setter (`app/profile.tsx:16`). These only drive the picker widget.
- The other screens: feed, activity list, search, camera, posting, picture viewing, the trip-impact calculator and login (`app/(tabs)/*`, `app/LiftCam.tsx`, `app/prePost.tsx`, `app/ViewPicture.tsx`, `hooks/useAuth.ts`). They are screen glue over device SDKs and the remote API. The activity reconciliation (`app/(tabs)/activity.tsx`) and the emission estimate (`app/(tabs)/leaf.tsx`) are not part of this model.
- The shared user context (`Store.tsx`). It only holds state.
