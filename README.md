# A verified model of the awesome-persian-youtubers README generator

The generator reads a list of configured YouTube channels and a list of
categories. For each channel it asks the YouTube Data API for the channel's
snippet and statistics and for its latest activity. It drops channels that
are unknown, too small (fewer than 10 subscribers or fewer than 5 videos) or
that have no activity. The remaining channels go into one bucket per
category, and each bucket keeps a running subscriber total. The categories
are then ranked by total, each bucket's channels are ranked by subscriber
count, and the README's table of contents and sections are produced.

This project models that pipeline in Dafny and proves its properties. It has
these modules:

- `Numeric` models `str::parse::<i32>` as a partial decimal parser.
- `YouTube` holds the response shapes, `Request::new` and the two `get_url`
  builders.
- `Model` holds the shared records and the `TryFrom` conversion of
  `model.rs`.
- `Sorting` holds the stable descending sort. It gives a functional
  specification, an in-place insertion sort on an array proved equal to it,
  and a uniqueness lemma. The lemma says any stable sort of the same input
  gives the same output, so Rust's merge-based `sort_by` is modelled
  faithfully.
- `Markdown` holds the anchor key and the contents line.
- `Pipeline` holds the per-channel gate and the `Aggregator` class. The class
  owns the `category_list` map and runs the channel loop, the total copy and
  the contents loop in place. `Generate` strings the steps together.

The HTTP responses are inputs: each is a sequence of items that may be empty.

## Model

| member | source | states |
|---|---|---|
| `Numeric.ParseI32` | cli/src/main.rs:123-124 | a successful parse yields a value inside the signed 32-bit range and needs a non-empty string |
| `Numeric.ParseDecimalRoundTrip` | cli/src/model.rs:44-45 | the decimal text of every count from 0 to 2^31-1 parses back to that count |
| `Numeric.ParseNegativeRoundTrip` | cli/src/model.rs:44-45 | `-` followed by the decimal text of a magnitude up to 2^31 parses to the negative value |
| `Numeric.ParsedIsNumeral` | cli/src/model.rs:44-45 | only a digit string, optionally after one `+` or `-` and with at least one digit, parses |
| `Numeric.ParseRejectsOverflow` | cli/src/model.rs:44-45 | 2^31 itself does not parse: overflow is an error, not a wrap-around |
| `YouTube.NewRequest` | cli/src/youtube.rs:73-79 | the prefix is the fixed API base and the id and key are kept verbatim |
| `YouTube.ChannelUrl` | cli/src/youtube.rs:120-126 | the channel URL's length is the sum of its five parts |
| `YouTube.ActivitiesUrl` | cli/src/youtube.rs:129-135 | the activities URL's length is the sum of its six parts |
| `YouTube.ChannelUrlLayout` | cli/src/youtube.rs:121-126 | the channel URL is the prefix, the channel path, the id verbatim, then `&key=` and the key |
| `YouTube.ActivitiesUrlLayout` | cli/src/youtube.rs:130-135 | the activities URL is the prefix, the activities path, the id verbatim, then `&maxResults=1&key=` and the key |
| `YouTube.UrlsDifferOnlyInPath` | cli/src/youtube.rs:120-136 | both URLs begin with the prefix and never coincide, because they differ in the path right after it |
| `YouTube.ChannelUrlInjective` | cli/src/youtube.rs:120-126 | for ids without `&`, equal channel URLs come from equal ids and equal keys |
| `Model.DefaultCategory` | cli/src/model.rs:6-12 | a defaulted category has empty id and title and a total of 0 |
| `Model.DefaultChannel` | cli/src/model.rs:14-28 | a defaulted channel has empty strings, zero counts and no timestamps |
| `Model.ChannelLink` | cli/src/model.rs:57 | the link is the channel page base followed by the id, verbatim |
| `Model.EligibleBoundary` | cli/src/model.rs:49-51 | exactly 10 subscribers and 5 videos pass; anything below either threshold fails; passing is monotone in both counts |
| `Model.TryFromResponse` | cli/src/model.rs:36-64 | `Err` exactly when a parsed count is below its threshold; on `Ok`, id, title, description, thumbnail and creation time come from the first item, the link from its id, the counts are the parsed ones within [10 or 5, 2^31-1], and `updated_at`, `name` and `category` keep their defaults |
| `Model.TryFromRoundTrip` | cli/src/model.rs:39-63 | every record of the shape `try_from` builds comes back unchanged from the response that prints its counts in decimal |
| `Model.TryFromShape` | cli/src/model.rs:53-62 | every accepted record has that shape: eligible 32-bit counts, a link built from its id, a creation time and no update time |
| `Model.TryFromReadsFirstItemOnly` | cli/src/model.rs:42-43 | items after the first never change the outcome |
| `Sorting.StableSortSorted` | cli/src/main.rs:183 | the specification sort is non-increasing by key |
| `Sorting.StableSortPermutation` | cli/src/main.rs:183 | the specification sort is a permutation of its input |
| `Sorting.StableSortKeepsTies` | cli/src/main.rs:183 | elements with equal keys keep their input order |
| `Sorting.StableSortUnique` | cli/src/main.rs:197-199 | any sequence that is sorted and keeps ties in input order is the specification sort, so every stable sort agrees with it |
| `Sorting.StableSortIdempotent` | cli/src/main.rs:197-199 | sorting an already sorted sequence changes nothing |
| `Sorting.InsertDescAt` | cli/src/main.rs:197-199 | insertion places the element after the last element whose key is at least its own |
| `Sorting.InsertInPlace` | cli/src/main.rs:197-199 | one insertion step on the array equals the specification insertion and leaves the rest of the array unchanged |
| `Sorting.SortDescBy` | cli/src/main.rs:183 | the in-place sort leaves the array equal to the specification sort of its old contents |
| `Markdown.ReplaceChar` | cli/src/main.rs:190 | each character equal to the pattern becomes the replacement and every other character is kept, position by position |
| `Markdown.RemoveChar` | cli/src/main.rs:191 | the removed character is absent, the result is no longer, and every other character occurs as often as before |
| `Markdown.RemoveAbsentChar` | cli/src/main.rs:191 | removing a character that does not occur changes nothing |
| `Markdown.RemoveCharKeepsAbsent` | cli/src/main.rs:190-191 | removal never introduces a character |
| `Markdown.AnchorKey` | cli/src/main.rs:190-191 | the anchor holds no space and no U+200C and is no longer than the title |
| `Markdown.RemoveCharConcat` | cli/src/main.rs:191 | removing from a concatenation is removing from each piece, concatenated: the kept characters keep their order |
| `Markdown.RemoveCharSingle` | cli/src/main.rs:191 | a single character is dropped exactly when it is the removed one |
| `Markdown.ReplaceCharConcat` | cli/src/main.rs:190 | replacing in a concatenation is replacing in each piece, concatenated |
| `Markdown.AnchorKeyConcat` | cli/src/main.rs:190-191 | the anchor of a concatenation is the concatenation of the anchors, so the key follows the title left to right |
| `Markdown.AnchorKeySingle` | cli/src/main.rs:190-191 | a space becomes `-`, a U+200C disappears, and any other character is kept |
| `Markdown.AnchorKeyOfPlainTitle` | cli/src/main.rs:190-191 | a title with neither a space nor a U+200C is its own anchor |
| `Markdown.AnchorKeyIdempotent` | cli/src/main.rs:190-191 | deriving an anchor from an anchor changes nothing |
| `Markdown.ReplaceCharCount` | cli/src/main.rs:190 | after replacement the pattern is gone, the replacement occurs as often as both did before, and every other character as often as before |
| `Markdown.AnchorKeyCounts` | cli/src/main.rs:190-191 | every space becomes a dash, and every character other than a space, a dash or U+200C survives as often as before |
| `Markdown.TocLine` | cli/src/main.rs:193 | the contents line is `- [`, the title, `](#`, the key and `)` plus a newline, at the stated offsets |
| `Pipeline.Requests` | cli/src/main.rs:106-145 | the channel URL is always requested; the activities URL is requested second exactly when the channel has an item and passes both thresholds |
| `Pipeline.Examine` | cli/src/main.rs:117-159 | the three skips (no channel item, below a threshold, no activity item) and admission, each in both directions; an admitted record takes its id and link from the configured id, its counts from the parsed statistics, its texts and creation time from the channel item and its update time from the activity item |
| `Pipeline.ExamineAgreesWithTryFrom` | cli/src/main.rs:149-159 | the loop admits what `try_from` accepts, given an activity item, and its record differs only in the id source and the update time |
| `Pipeline.Absorbed` | cli/src/main.rs:161-173 | absorbing adds the category's key, appends the record to that bucket (a new bucket holds only it), adds its subscribers to the bucket's total (a new bucket starts from them) and leaves every other bucket unchanged |
| `Pipeline.AbsorbKeepsConsistent` | cli/src/main.rs:161-173 | absorbing keeps every bucket non-empty with a total equal to the sum of its channels' subscribers |
| `Pipeline.AggregateConsistent` | cli/src/main.rs:106-174 | the whole channel loop keeps that invariant |
| `Pipeline.AggregateBuckets` | cli/src/main.rs:106-174 | from an empty map, a category has a bucket exactly when some of its channels were admitted; the bucket lists those records in list order, and its total is their sum |
| `Pipeline.AdmittedAreEligible` | cli/src/main.rs:128-130 | every admitted record has at least 10 subscribers and 5 videos, a link built from its id, and an update time |
| `Pipeline.SkippedChannelInvisible` | cli/src/main.rs:117-145 | a skipped channel anywhere in the list leaves the same buckets as leaving it out |
| `Pipeline.EmptyResponseInvisible` | cli/src/main.rs:117-145 | a channel with no channel item or no activity item contributes to no bucket and no total |
| `Pipeline.SameCategoryBucket` | cli/src/main.rs:161-173 | two admitted channels of one category give one bucket that holds both in loop order and sums their subscribers |
| `Pipeline.TotalsFromAdmitted` | cli/src/main.rs:177-182 | after the copy, a category with admitted channels carries their subscriber sum and any other keeps the total it was read with |
| `Pipeline.RankedIsStableDescending` | cli/src/main.rs:183 | the category ranking is non-increasing by total, is a permutation of the categories, and keeps ties in list order |
| `Pipeline.TocMatchesSections` | cli/src/main.rs:186-199 | the contents are exactly one `TocLine` of the title and its anchor per section, in section order, so contents and sections cover the same categories in the same order |
| `Pipeline.SortBuckets` | cli/src/main.rs:196-199 | ranking the buckets in turn never adds or removes a category |
| `Pipeline.SortBucketsRanksListed` | cli/src/main.rs:188-199 | after the contents loop, every listed category's bucket is ranked and every other bucket is untouched |
| `Pipeline.RankKeepsConsistent` | cli/src/main.rs:196-199 | ranking a bucket's channels keeps its total equal to their sum |
| `Pipeline.SectionsArePopulated` | cli/src/main.rs:188-199 | every section belongs to a listed category with a bucket, every such category has a section, and a section's channels are its bucket ranked |
| `Pipeline.SectionChannelsRanked` | cli/src/main.rs:196-199 | a section's channels are non-increasing by subscribers, a permutation of the bucket, and keep ties in absorption order |
| `Pipeline.ReportSections` | cli/src/main.rs:176-199 | every section of the run has at least one admitted channel; its category carries those channels' subscriber sum; it lists exactly those channels, ranked, each past both thresholds |
| `Pipeline.ExampleAdmitted` | cli/src/main.rs:117-159 | a channel answering with decimal counts of at least 10 subscribers and 10 videos and one activity item is admitted with that id and count |
| `Pipeline.ExampleTwoChannels` | cli/src/main.rs:161-199 | two channels of one category listed smaller first: the bucket totals their sum, holds them in list order, and the section lists the larger first |
| `Pipeline.Aggregator.constructor` | cli/src/main.rs:104 | the run starts with an empty, consistent map |
| `Pipeline.Aggregator.Absorb` | cli/src/main.rs:161-173 | the in-place update of `category_list` equals `Absorbed` of the old map and keeps it consistent |
| `Pipeline.Aggregator.Run` | cli/src/main.rs:106-174 | after the loop, `category_list` is the fold of one gate-and-absorb step per channel, in list order, over the old map |
| `Pipeline.Aggregator.CopyTotals` | cli/src/main.rs:177-182 | each category in the array gets its bucket's total if it has a bucket and is otherwise unchanged |
| `Pipeline.Aggregator.RenderContents` | cli/src/main.rs:186-199 | the contents and sections are those of the categories with a bucket, in array order, and each listed bucket is left ranked in place |
| `Pipeline.RankChannels` | cli/src/main.rs:196-199 | sorting a bucket's channels through an array gives the stable descending order by subscribers |
| `Pipeline.Generate` | cli/src/main.rs:104-221 | the categories end ranked by their copied totals; the contents and sections are those of the ranked categories over the aggregated buckets |

## Left out

- HTTP and JSON: `reqwest::get`, `.json()` and the async `get`, `get_channel` and `get_activities` methods are not modelled. Each response is an input value.
- Fetch errors: in `main.rs` a failed fetch propagates through `?` and aborts the whole run. It does not skip the channel. With fetching abstracted away, only the zero-item skips are modelled. Unlike the `skip_fail` macro in `cli/src/macros.rs`, `main.rs` does not skip a channel whose fetch fails.
- File and environment I/O is not modelled. This covers `categories.json5`, `channels.json5`, `README.template`, dotenv, the `API_KEY` variable and `println!`. The categories and channels are parameters and the API key is a string argument.
- The HTML rows of each section (cli/src/main.rs:194, 201-219) and the template substitution are not modelled. The `list` text is modelled as the sequence of sections, each a category with its ranked channels.
- The clock: the activity indicator compares `updated_at` with `Utc::now()` minus six months and formats the date. Neither is modelled. Timestamps are opaque integers.
- `cli/src/macros.rs` (`skip_fail`) and `cli/src/tests.rs` (file reading) are not part of this model. Serde attributes and field renames are library behaviour.
- Pipeline.Aggregator.Absorb: the running total is an unbounded integer. Rust's `+=` on `i32` at cli/src/main.rs:163 panics in debug builds and wraps in release builds once the sum passes 2^31-1, and that is not modelled. Each single count is kept in the `i32` range by the parser.
- Pipeline.Absorbed: the same unbounded total as `Aggregator.Absorb`.
- Panics are preconditions. Indexing `items[0]` of an empty response inside `try_from`, and `parse().unwrap()` of a count string that is not an `i32`, crash the source. `Model.TryFromResponse` requires `Convertible`, and the channel loop requires `Parsable` of every channel.
- Rust's `sort_by` is a stable merge sort. The model sorts by insertion. `Sorting.StableSortUnique` shows that both produce the same order.
- `main.rs` has its own record type without `name` and `category`. In the shared record those two fields stay empty. `main.rs`'s `updated_at` is not optional; it is modelled as `Some` of the activity time.
- `Pipeline.Aggregator.RenderContents` ranks a bucket each time its category appears in the list. Ranking twice gives the same order (`Sorting.StableSortIdempotent`). A repeated category id therefore yields a repeated contents line and a repeated section, with the same channels, as the source does.
