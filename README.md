# next-page link scoring, modelled in Dafny

The program loads a web page in a browser. It scores every same-site hyperlink by how likely
it is to lead to "the next page", then lists the links highest score first. This project models
that scoring and ranking core, `score.py`, and proves properties of it.

A link reaches the scorer as a `Signals.Link` value. It holds:

- the lower-cased link text;
- the destination and its URL path and network location;
- the split `class` and `id` tokens;
- the position on the page;
- the lower-cased text of the parent node;
- an identity for that parent node.

The modules follow the program's structure:

- `Text`: Python's `sub in s` on strings (`Contains`), `any(...)` over a keyword list (`ContainsAny`), and the digit test on a URL path.
- `Sorting`: Python's stable `sorted(xs, key=k)`, specified as an insertion sort. It is proved ascending, a permutation and stable. It is also proved equal to every other stable sort, so Timsort gives the same list.
- `Signals`: the link record, the six 0/1 cues and the order term of `score_link_elements_v2`, and their sum `LinkScore`.
- `Grouping`: the `parent_groups` dictionary. It is built by a loop (`GroupByParent`) and specified by `Parents` (first-seen keys) and `Children` (each group in discovery order).
- `Score`: the v2 scorer, specified by `ScoreAll`. The source has three loops. `GroupByParent` runs the grouping loop (score.py:91-93). `ScoreLinkElementsV2` runs the loop over the groups (score.py:97). `ScoreGroupLinks` runs the loop over one group's sorted links (score.py:101). Beside them are the internal-link filter and `extract_links_and_score`.
- `Ranking`: `scored_links.sort(key=score, reverse=True)`, an in-place stable sort of an array.
- `ScoreV1`: the earlier scorer `score_link_elements`, including its division by the viewport size.
- `Scenarios`: worked pages.

## Behaviour worth knowing

- **Ordinal cue.** The numeral list holds the single letters `i`, `v` and `x`, and the test is a substring test. So any text with one of those letters earns the ordinal point, including `next` and `continue` (`Signals.RomanNumeralsAreLetterTest`, `Signals.NextAndContinueEarnOrdinal`).
- **A single `next` link.** A lone link with text `next`, path `/page/2`, `y = 900` in a 1000-pixel viewport, no class or id and surrounding text `read more` scores 4. The points come from the text, the ordinal cue (the `x` of `next`), the position and the URL digit (`Scenarios.NextLinkScoresFour`).
- **Score range.** A v2 score is a whole number of cue points from 0 to 6 plus an order term below 1 (`Signals.LinkScoreSplits`). So it lies in `[0, 7)` (`Signals.LinkScoreBounds`), and 6.5 is reachable (`Scenarios.ScoreCanExceedSix`).
- **Orientation and input order.** Orientation is read from the first two links in discovery order. Reordering a group can turn it from vertical to horizontal (`Score.OrientationDependsOnDiscoveryOrder`).
- **Numeral list.** The numeral list is the one the comprehensions at score.py:113-116 produce. It includes `2st`, `3nd` and `11nd`, and leaves out `12nd` and `13rd`.

## Where the code and its comments differ

- **Order term direction.** The comment at score.py:135 says horizontal groups score later links higher. The comment at score.py:138 says vertical groups score earlier links higher. The formulas do the opposite: `(n-index-1)/n` falls as the index grows and `index/n` rises (`Signals.OrderTermDirection`). The model follows the formulas.

## Model

| member | source | states |
|---|---|---|
| `Text.ContainsAt` | score.py:123 | Python's `keyword in text` (`Contains`) holds exactly when some offset of the text starts a copy of the keyword |
| `Text.ContainsLetterOf` | score.py:119-120 | a text containing a word contains each single letter of that word |
| `Text.MissingFirstChar` | score.py:144 | a text lacking a keyword's first character does not contain the keyword |
| `Text.EmptyContainsOnlyEmpty` | score.py:119-120 | the empty text contains a keyword of a list exactly when the empty string is in the list |
| `Signals.RomanNumeralsAreLetterTest` | score.py:117-120 | a text holds one of the Roman numerals `i`..`xx` exactly when it holds `i`, `v` or `x` |
| `Signals.LetterEarnsOrdinal` | score.py:113-121 | any text containing `i`, `v` or `x` earns the ordinal point |
| `Signals.WordWithLetterEarnsOrdinal` | score.py:113-121 | a text containing a word with `i`, `v` or `x` in it earns the ordinal point |
| `Signals.NextAndContinueEarnOrdinal` | score.py:119-124 | a text containing `next` or `continue` earns both the ordinal point and the link-text point |
| `Signals.ClassCueIsTokenMatch` | score.py:123-131 | the class/id cue matches whole tokens: `next-btn` earns the text point but not the class point |
| `Signals.NoEmptyNumeral` | score.py:113-118 | none of the five parts of the numeral list holds the empty string |
| `Signals.NoEmptyKeyword` | score.py:112-144 | none of the keyword lists holds the empty string |
| `Signals.EmptyTextFiresNoCue` | score.py:119-124 | empty text earns neither the ordinal, the link-text nor the surrounding-text point |
| `Signals.CueCount` | score.py:119-145 | at most six of the 0/1 cues fire for a link |
| `Signals.LinkScoreSplits` | score.py:110-145 | a score is the whole number of fired cues, at most 6, plus the order term of the link's sorted position |
| `Signals.OrderTermBounds` | score.py:133-139 | the order term lies in `[0, (n-1)/n]`, below 1, and is 0 in a group of one |
| `Signals.OrderTermDirection` | score.py:133-139 | the vertical order term strictly rises with the sorted index; the horizontal one strictly falls |
| `Signals.LinkScoreBounds` | score.py:110-145 | every v2 score is at least 0 and below 7 |
| `Sorting.Insert` | score.py:99 | inserting into a sequence adds exactly one element |
| `Sorting.InsertPermutes` | score.py:99 | insertion adds the new element and loses none |
| `Sorting.SortBy` | score.py:99 | the sorted sequence is a permutation of the input |
| `Sorting.WithKey` | score.py:99 | a key class holds only elements of the input with that key |
| `Sorting.InsertLandsAt` | score.py:164 | the element lands just after the last element whose key is at most its own |
| `Sorting.InsertWithKey` | score.py:99 | insertion appends the element to its own key class and leaves the others alone |
| `Sorting.InsertAscending` | score.py:99 | insertion into an ascending sequence keeps it ascending |
| `Sorting.SortByAscending` | score.py:99 | the sort's keys never decrease |
| `Sorting.SortByStable` | score.py:99 | elements with equal keys keep their input order |
| `Sorting.StableSortUnique` | score.py:99 | any ascending sequence with the same key classes as the input is the insertion sort of it, so every stable sort agrees |
| `Grouping.Parents` | score.py:89-93 | the dictionary's keys are exactly the parents of the links |
| `Grouping.Children` | score.py:93 | a group holds only links of the input with that parent |
| `Grouping.ParentsFirstSeen` | score.py:90-93 | keys come in first-seen order: a parent listed before another has a link earlier than every link of the other |
| `Grouping.ParentsDistinct` | score.py:90-93 | each parent is a key once |
| `Grouping.GroupsPartitionLinks` | score.py:89-97 | the groups, in key order, hold exactly the input links: each link is in one group |
| `Grouping.AppendToGroup` | score.py:93 | appending to an existing group keeps the dictionary in step with the links read so far |
| `Grouping.OpenGroup` | score.py:93 | a new parent opens a new group, last in key order |
| `Grouping.GroupByParent` | score.py:89-93 | the loop builds the keys in first-seen order, and under each key that parent's links in discovery order |
| `Score.ArrangeIsStableSort` | score.py:99 | each group is visited as a permutation sorted by `x` (horizontal) or `y` (vertical), ties in discovery order |
| `Score.VisitOrderPermutesLinks` | score.py:97-101 | the visiting order is a permutation of the input links |
| `Score.ScoreAllPairsEachLink` | score.py:95-149 | one `(href, score)` pair per input link, no deduplication: the i-th pair carries the destination of the i-th visited link, and every score is in `[0, 7)` |
| `Score.OrientationDependsOnDiscoveryOrder` | score.py:99 | the same three links form a vertical group in one order and a horizontal group in another |
| `Score.ScoreLink` | score.py:110-145 | the scoring loop body adds the seven contributions to get `LinkScore`, which lies in `[0, 7)` |
| `Score.ScoreGroupLinks` | score.py:99-147 | one group's loop emits its sorted links, each with its score at its sorted index |
| `Score.ScoreLinkElementsV2` | score.py:88-149 | the whole function emits `ScoreAll`: the groups in key order, each in sorted order |
| `Score.InternalLinks` | score.py:154 | keeps exactly the links whose network location is the page's, never more than the input |
| `Score.ExtractLinksAndScore` | score.py:151-156 | scores the internal links; every emitted pair names the destination of an internal link of the page |
| `Ranking.RankedIsDescending` | score.py:164 | the ranking is a permutation of the pairs with scores non-increasing |
| `Ranking.RankedIsStable` | score.py:164 | pairs of equal score keep their emitted order |
| `Ranking.RankingIsUnique` | score.py:164 | any non-increasing ordering that keeps ties in emitted order is the ranking |
| `Ranking.InsertInto` | score.py:164 | one in-place step moves the next pair down into the sorted prefix and leaves the rest of the array alone |
| `Ranking.Rank` | score.py:164 | the in-place sort leaves the array holding the ranking of its old contents |
| `Ranking.RankPage` | score.py:162-164 | the program's ranked output for a page is the ranking of the v2 scores of its internal links |
| `ScoreV1.AtLeastZero` | score.py:71 | `max(0, v)` is at least 0 and at least `v`, and is one of them |
| `ScoreV1.VerticalTermBounds` | score.py:69-71 | with a positive height and `y >= 0`, the vertical order term is in `[0, 1]` |
| `ScoreV1.HorizontalTermBounds` | score.py:72-75 | with a positive width and `0 <= x <= width`, the horizontal order term is in `[0, 1]` |
| `ScoreV1.V1ScoreBounds` | score.py:56-83 | for a link inside a viewport of positive size, the v1 score is in `[0, 6]` |
| `ScoreV1.V1OrderDirection` | score.py:68-75 | the vertical term never rises as `y` grows; the horizontal term never falls as `x` grows |
| `ScoreV1.V1ScoreLink` | score.py:57-83 | the v1 loop body computes `V1Score` |
| `ScoreV1.ScoreLinkElementsV1` | score.py:26-86 | the result fails with a division by zero exactly when there are links and the orientation's viewport dimension is 0; otherwise one pair per link in input order with the link's destination |
| `Scenarios.OneGroupPage` | score.py:89-97 | a page whose links share one parent is scored as that single group |
| `Scenarios.SingleLinkPage` | score.py:97-147 | a one-link page scores that link as a vertical group of one |
| `Scenarios.ReadMoreIsNotSurroundingCue` | score.py:144 | `read more` earns no surrounding-text point |
| `Scenarios.NextLinkScore` | score.py:110-145 | a link with text `next`, path `/page/2`, `y = 900` in a 1000-high viewport, no class or id and surrounding text `read more` scores 4 at index 0 of a group of one |
| `Scenarios.NextLinkScoresFour` | score.py:88-149 | a page holding only that link yields the single pair `(href, 4)` |
| `Scenarios.NoCueLink` | score.py:110-145 | a link with no text, path, surrounding text, classes or ids, high on the page, scores its order term alone |
| `Scenarios.VerticalPairGroup` | score.py:89-99 | two links of one parent at equal `x` form one vertical group, already in `y` order |
| `Scenarios.VerticalPairScores` | score.py:88-149 | two cue-less links of one parent at equal `x`, at `y = 50` and `y = 150` in a 1000-high viewport, score 0 and 0.5 |
| `Scenarios.RankedPair` | score.py:164 | of two pairs the higher score is ranked first; a tie keeps its order |
| `Scenarios.VerticalPairRanksLowerFirst` | score.py:162-164 | for that pair of links, the ranking puts the lower link (`y = 150`) first |
| `Scenarios.ScoreCanExceedSix` | score.py:110-145 | a link firing all six cues at index 1 of a vertical pair scores 6.5 |

## Left out

- Browser access is not modelled. The Selenium driver, `find_elements`, `get_attribute`, `location` and `execute_script` become the fields of `Link`. `lower()` and `split()` are applied before a `Link` is built.
- URL parsing is not modelled. `urlparse` and `urljoin` (score.py:8-16, 77, 141) become the `path` and `netloc` fields. `is_internal_link_v2` is equality of the joined link's network location with the page's.
- Floating point is not modelled: scores and order terms are exact reals. The `y > height * 0.7` test is `10 * y > 7 * height`. Python's float product differs at some inputs: with `height = 90` and `y = 63`, Python computes 62.99999999999999, so the link gets the point; the exact test does not give it.
- Ranking.RankedIsStable and Ranking.RankPage keep every tie between equal real scores in emitted order. Python adds floats, so two scores that are equal as reals can differ in the last bit, and then Python breaks the tie. Take the link at index 1 of a vertical group of three. With only the digit and surrounding-text cues, Python computes `((0 + 1/3) + 1) + 1` = 2.333333333333333. With only the ordinal and text cues (text `vi more`), it computes `2 + 1/3` = 2.3333333333333335. If the first link is emitted before the second, Python ranks the second first while the model keeps emitted order. This can change the top-ranked link.
- `str.isdigit` accepts every Unicode decimal digit. The model accepts only `0`..`9`.
- `ScoreLinkElementsV2` takes one viewport height per call. The source asks the browser for it once per link.
- Sorting uses insertion sort, not Python's Timsort. `Sorting.StableSortUnique` and `Ranking.RankingIsUnique` show every stable sort gives the same list.
- `ScoreLinkElementsV1` tests for a zero viewport dimension before the link's cues, not at the division. The cues have no effects, so the outcome is the same. The raised `ZeroDivisionError` becomes the `DivisionByZero` result.
- A missing `href`, `class` or `id` attribute (Python `None`) is not modelled. Every attribute is a string.
- Parent nodes are compared by identity, modelled as a `NodeId` number.
- Browser start-up and shutdown, printing, and the `main` driver loop are not modelled. The loop's only computation, the sort at score.py:164, is modelled.
- main.py and interesting_cuts.py are not part of this model.
