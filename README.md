# A verified model of the JBNU notice crawler

This project models the crawl-and-merge engine of the St2usy/crawler repository in Dafny. The engine collects notices from the department's bulletin boards (csai.jbnu.ac.kr) and the SW program site (swuniv.jbnu.ac.kr). It keeps a snapshot of the notices, merges newly found ones into it, and answers queries over it. The model covers the five copies of the crawling loop, the Firestore sink and the scheduler. The model proves properties of each.

Modules, following the program's structure:

- `Wrappers`, `Text`, `Records`: Option/Result, Python's string operations used by the parsers, and the notice record of `new/models.py`.
- `Fetch`, `Listing`, `Paging`, `Detail`: the HTTP response and the listing and detail parsers.
  - Documents are plain data: table rows with optional links, link lists, and detail pages as named containers.
  - Page-count rules and page URLs.
  - The fallback chains for detail content.
- `Crawl`, `Delta`: the page walk shared by every crawler, and filling posts from their detail pages. `find_new_posts` and the merge, and the growing-seen-set acceptance of `scheduled_crawler.py`.
- `Queries`, `Summary`: the snapshot queries of `new/crawler_service.py` (filters, stable newest-first sort, offset/limit), the category list and the per-category summaries and counts.
- `CrawlerService`, `MultiScheduled`, `Scheduled`, `MultiCrawler`, `BasicCrawler`: one module per crawler file. Each holds its crawler class with the snapshot as a field updated by its methods. The methods are proved equal to specification functions, and the properties are lemmas about those functions.
- `Notify`: notification message formatting.
- `Firebase`: document ids, the upsert of `save_notice`, and the accounting of `save_notices_batch` (commits every 500 staged writes). Also the initialisation rule, `search_notices` and `test_connection`.
- `Scheduler`: the flag machine of `SchedulerService`.

The outside world is passed in as parameters:

- `requests.get` for listing and detail pages is an answer per request: a status and a parsed document, or a failure.
- `urljoin` and Python's `hash` are functions given as arguments.
- `datetime.now()` is an opaque string.
- Firestore is a map from document id to document. Its failures are given per call, except that a commit of more than 500 writes always fails.
- Saving to JSON is a ghost `persisted` field. Handing data to the sink is a ghost log.

Two behaviours of the code that the model keeps:

- `run_now` never consults `is_running` (new/scheduler_service.py:142-192), so a manual run may overlap a scheduled one.
- In crawler.py, `raise_for_status` raises `HTTPError`, which the loop's `except requests.exceptions.RequestException` catches. So an error status on any page breaks the page loop. It does not skip the page.

## Model

| member | source | states |
|---|---|---|
| Text.TokenLen | new/crawler_service.py:217 | the token length is the longest whitespace-free prefix: every character before it is not a space and the next one is |
| Text.Words | new/crawler_service.py:421-422 | `str.split()` yields only words: non-empty, whitespace-free |
| Text.StripLeftShape | new/crawler_service.py:210 | `lstrip` removes exactly the leading whitespace: the result is a suffix that does not start with a space |
| Text.StripRightShape | new/crawler_service.py:210 | `rstrip` removes exactly the trailing whitespace: the result is a prefix that does not end with a space |
| Text.StripShape | new/crawler_service.py:210-228 | a stripped cell text neither starts nor ends with whitespace |
| Text.StripIdempotent | new/crawler_service.py:210-228 | stripping twice is stripping once |
| Text.LowerSpec | new/crawler_service.py:733-737 | a lowered text has no upper-case ASCII letter left, and every character that was not one is kept |
| Text.LowerIdempotent | new/crawler_service.py:733-737 | lowering an already lowered query or title changes nothing |
| Text.LowerAppend | new/crawler_service.py:733-737 | lowering works character by character: the lowering of a concatenation is the concatenation of the lowerings |
| Text.LowerContains | new/crawler_service.py:733-738 | when a title contains the query, the lowered title contains the lowered query, so a case-exact hit is always found |
| Text.NatToString | new/firebase_service.py:216 | `str(n)` of a natural number is a non-empty string of digits |
| Text.ParseNatToString | new/firebase_service.py:216 | `int(str(n)) == n`: the decimal rendering reads back to the number |
| Text.DigitRunLen | new/crawler_service.py:126 | the digit run is the longest digit prefix: digits before it and a non-digit (or the end) after it |
| Text.FirstDigitRun | new/crawler_service.py:126 | `re.search(r'\d+', s)` finds a run of digits, and finds none exactly when the text has no digit |
| Text.LexLeTotal | new/crawler_service.py:677 | Python's string comparison used as a sort key is total |
| Text.LexLeAntisymmetric | new/crawler_service.py:677 | two strings each at most the other are equal |
| Text.LexLeTransitive | new/crawler_service.py:677 | string comparison is transitive, so sorting by date strings is well defined |
| Text.TokenLenOfWord | new/crawler_service.py:421-424 | a word followed by a blank or the end is exactly one token |
| Text.WordsOfWord | new/crawler_service.py:421-424 | a single word splits into itself |
| Text.WordsOfWordThen | new/crawler_service.py:421-424 | a word, a blank and a text split into the word followed by the words of the text |
| Text.WordsOfJoin | new/crawler_service.py:421-424 | splitting a blank-joined list of words gives the words back |
| Text.CollapseKeepsWords | new/crawler_service.py:421-424 | collapsing whitespace keeps the words, so counting words after the collapse counts the original words |
| Records.WithContent | new/crawler_service.py:591-596 | filling a post's content fields keeps its URL, number and category |
| Listing.RowTitle | new/crawler_service.py:213-222 | the title is whitespace-collapsed and has the words of the link text when there is a link, else of the cell text |
| Listing.RowRecord | new/crawler_service.py:210-248 | a row's record carries the URL of its second cell |
| Listing.RowRecordFacts | new/crawler_service.py:210-248 | the record has exactly the keys its file's parser sets, stripped cell texts, a collapsed title and empty content fields where the parser sets them |
| Listing.ParseTable | new/crawler_service.py:194-250 | the row loop yields `TableParse`: `[]` without a table, a failure without a body, else one record per row of six or more cells |
| Listing.TableRecordsAppend | new/crawler_service.py:205-249 | parsing two row lists one after the other gives the records of each, in order |
| Listing.TableRecordsCount | new/crawler_service.py:206-207 | lenient parsing: one record per row of at least six cells, so never more records than rows |
| Listing.TableRecordsSingle | new/crawler_service.py:206-207 | a single row yields its record exactly when it has six cells or more |
| Listing.TableRecordsShape | multi_url_scheduled_crawler.py:120-175 | every record of a table has its file's key set (no `id` key in the scheduled crawlers) and a collapsed title |
| Listing.ProgramHrefSpec | new/crawler_service.py:270-275 | a normalised href is non-empty and, unless it was absolute (`http...`), starts with the site's host |
| Listing.ProgramKindSpec | new/crawler_service.py:291-301 | the program category is the first of the five the title names, or the generic one when it names none |
| Listing.ProgramLinks | new/crawler_service.py:263-280 | the first loop keeps at most as many links as the page has |
| Listing.ProgramRecords | new/crawler_service.py:285-321 | one record per kept link, the k-th numbered `first + k` |
| Listing.ParseProgramPage | new/crawler_service.py:252-327 | the two loops together produce the kept links numbered 1, 2, ... in document order |
| Listing.KeepProgramLinks | new/crawler_service.py:263-280 | the filter loop yields exactly `ProgramLinks` |
| Listing.ProgramLinksAppend | new/crawler_service.py:263-280 | the link filter distributes over concatenated link lists |
| Listing.ProgramLinksStep | new/crawler_service.py:263-280 | one more link adds its normalised entry exactly when its stripped text names an application state and is longer than ten characters |
| Listing.NumberPrograms | new/crawler_service.py:285-321 | the numbering loop yields exactly `ProgramRecords` |
| Listing.ProgramRecordsFacts | new/crawler_service.py:268-315 | every program record has a keyword in a title longer than 10 characters, is numbered by position, and has the label joined with the program category |
| Listing.ProgramLinksKept | new/crawler_service.py:268 | every kept link satisfies the keyword-and-length filter and has a non-empty normalised href |
| Listing.NoticeLinks | new/crawler_service.py:337-350 | the alternative parser keeps at most as many links as the page has |
| Listing.NoticeLinksKept | new/crawler_service.py:337-350 | every kept notice link has a title longer than five characters and a non-empty normalised href |
| Listing.NoticeLinksAppend | new/crawler_service.py:337-350 | scanning two link lists one after the other keeps the notice links of each, in order |
| Listing.NoticeLinksStep | new/crawler_service.py:337-350 | one more link adds its normalised notice link exactly when its href names a `view` of a `bwrite_id` and its title is longer than five characters |
| Listing.ParseAlternative | new/crawler_service.py:329-375 | the single pass with a running counter yields the kept notice links numbered 1, 2, ...; dead code, since nothing in the service calls `_parse_swuniv_alternative` |
| Paging.MarkerPagesSpec | multi_url_scheduled_crawler.py:109-118 | the count fails exactly when the marker exists with no digit; a marker whose first number is `str(n)` gives `n`; no marker gives 1 |
| Paging.FirstDigitRunAfter | multi_url_scheduled_crawler.py:117 | the first digit run of a text is the number after a digit-free prefix |
| Paging.DigitRunLenOf | multi_url_scheduled_crawler.py:117 | a digit string followed by a non-digit is one digit run |
| Paging.TotalPagesClampedSpec | multi_url_scheduled_crawler.py:109-118 | the clamped count is `min(n, max_pages)` with a marker, an unclamped 1 without one, and fails exactly when the unclamped count fails |
| Paging.DigitLinkPages | new/crawler_service.py:129-136 | the digit links are at most as many as the links |
| Paging.MaxOf | new/crawler_service.py:139 | `max(page_numbers)` is one of the numbers and no number exceeds it |
| Paging.SlashTotal | new/crawler_service.py:165-169 | the total of an "a / b" text is a run of digits |
| Paging.SlashAt | new/crawler_service.py:167 | a match of `(\d+)\s*/\s*(\d+)` at a position yields digits as its second group |
| Paging.StripLeftBlanks | new/crawler_service.py:167 | the `\s*` of the pattern: blanks before a non-blank are exactly what is skipped |
| Paging.SlashAtOf | new/crawler_service.py:167-169 | a text that starts with "a / b" (any blanks around the slash) matches there with `b` as its second group |
| Paging.SlashTotalLead | new/crawler_service.py:167-169 | no match starts in a lead without digits, so the search finds the match after it |
| Paging.SlashTotalAfter | new/crawler_service.py:165-169 | for every digit-free lead, digits `a`, blanks, `/`, blanks, digits `b` and a rest not starting with a digit, the total read is `b` |
| Paging.ServiceTotalPagesSpec | new/crawler_service.py:118-171 | the count exceeds `max_pages` only as the default 1, and fails only on a department-site marker without digits |
| Paging.ServiceTotalPagesDigitLinks | new/crawler_service.py:129-140 | when some link is a page number the count is the largest one capped by `max_pages` |
| Paging.PageUrlSpec | new/crawler_service.py:573-578 | the page URL adds `&page=n` when the URL has a query and `?page=n` otherwise, and `n` can be read back from its end |
| Paging.PageUrlInjective | new/crawler_service.py:573-578 | distinct page numbers give distinct page URLs |
| Detail.FirstOf | new/crawler_service.py:536 | the first matching selector is chosen, and none is chosen exactly when no selector matches |
| Detail.FirstOfFirst | new/crawler_service.py:504 | `a or b or c` picks the first element found, even an empty one |
| Detail.ArticleTextWords | new/crawler_service.py:421-424 | the article text's words are the raw words, minus the first five exactly when there are more than ten |
| Detail.ImageUrlsSpec | new/crawler_service.py:427-432 | one image URL per non-empty `src`, each the normalised source |
| Detail.SwunivImageSpec | new/crawler_service.py:490-495 | a normalised image URL starts with `http` and ends with the source |
| Detail.ServiceDetailBase | new/crawler_service.py:377-414 | a department URL resolves images against the host `get_base_url` picks (the program host when the URL also names that site), and the configured base URL never changes a detail |
| Detail.CsaiContentSpec | new/crawler_service.py:409-453 | the article body wins whenever its text is non-empty, the word-processor body is used only when it gives no text, and the text agrees with the text-only chain |
| Detail.SwunivScanSpec | new/crawler_service.py:478-499 | the selector loop only adds images, and its text is the starting text or a visited container's collapsed text |
| Detail.SwunivScanStep | new/crawler_service.py:478-499 | a missing selector is passed over; a present one ends the scan when its text is long enough, otherwise its images are carried on |
| Detail.ScanSwunivSelectors | new/crawler_service.py:478-499 | the selector loop, looking up `div`s whose class is the literal CSS string, yields `SwunivScan` |
| Detail.ScanSelectors | new/crawler_service.py:478-499 | the selector loop over any selector list: its early exit at the first body of more than ten characters yields exactly `SwunivScan` |
| Detail.ScanMissing | new/crawler_service.py:478-499 | a page without any of the looked-up containers leaves the loop where it started |
| Detail.SwunivFallbackSpec | new/crawler_service.py:455-527 | on a page without the literal-class containers, the content comes from the first of `main`, `article`, `div#content` it has (even an empty one): its collapsed text, markup and normalised images |
| Detail.SwunivNothingFound | new/crawler_service.py:455-527 | a program-site page with none of the containers gives empty fields |
| Detail.DefaultContentSpec | new/crawler_service.py:529-555 | the generic chain fills all three fields from the first of `div.content`, `div.article`, `div.post` found, and gives empty fields without one |
| Detail.ServiceDetail | new/crawler_service.py:377-407 | any failure of the detail request gives empty content fields |
| Detail.FirstLongCellSpec | crawler.py:140-148 | step 5 picks the first cell whose collapsed text is longer than 100 characters, and gives `''` exactly when there is none |
| Detail.BasicTextSpec | crawler.py:100-148 | the five-step chain agrees with the two-step one when that finds text, and each later step is reached only when all earlier ones gave nothing |
| Detail.BasicDetail | crawler.py:88-157 | no detail (`None`) exactly when the request or its status fails |
| Detail.TextDetail | scheduled_crawler.py:155-187 | a failing detail page gives `''` |
| Detail.ScheduledDetail | multi_url_scheduled_crawler.py:177-241 | a failing detail page gives empty content fields |
| Crawl.GatherStop | new/crawler_service.py:571-583 | a page whose request raises drops every later page and keeps every earlier one |
| Crawl.GatherSplit | new/crawler_service.py:571-605 | without an aborting page before `m`, pages before `m` and from `m` on contribute in sequence |
| Crawl.GatherStep | new/crawler_service.py:597 | a page that does not abort contributes its posts ahead of the later pages |
| Crawl.GatherSkip | new/crawler_service.py:602-604 | a skipped page contributes nothing and later pages are still gathered |
| Crawl.GatherFrom | new/crawler_service.py:571-597 | every gathered post comes from some page in range that produced it |
| Crawl.GatherAll | new/crawler_service.py:571-597 | without failures the crawl holds as many posts as all pages together |
| Crawl.Enriched | new/crawler_service.py:591-596 | filling keeps the number of posts |
| Crawl.EnrichedSpec | new/crawler_service.py:591-596 | the k-th post is filled exactly when it has a URL, and is otherwise kept as it is |
| Crawl.EnrichedSingle | new/crawler_service.py:591-596 | one post is filled exactly when it has a URL |
| Crawl.EnrichedAppend | new/crawler_service.py:591-596 | filling a concatenation fills each part |
| Crawl.EnrichPosts | new/crawler_service.py:591-596 | the in-place fill loop yields `Enriched` |
| Crawl.CrawlEachAppend | new/crawler_service.py:635-638 | crawling two lists of listings one after the other gives the posts of each, in order |
| Crawl.CrawlEachStep | new/crawler_service.py:635-638 | one more listing appends exactly that listing's posts |
| Delta.FindNewPosts | new/crawler_service.py:645-655 | the loop yields `NewPosts`: the crawled posts with a set URL absent from the snapshot, in crawl order |
| Delta.SelectMembers | new/crawler_service.py:647-652 | a post is in the delta exactly when it was crawled and is new |
| Delta.SelectAppend | new/crawler_service.py:650-652 | the delta of a concatenation is the concatenation of the deltas, so crawl order is kept |
| Delta.SelectMultiplicity | new/crawler_service.py:650-652 | a new post crawled `n` times is in the delta `n` times: no dedup within a batch |
| Delta.NewPostsSpec | new/crawler_service.py:645-655 | the delta never holds a post without URL or with a stored URL |
| Delta.Merge | new/crawler_service.py:770 | the new snapshot is the new posts, in order, followed by the old snapshot |
| Delta.UrlSetAppend | new/crawler_service.py:770 | the URLs of a merged snapshot are those of both parts |
| Delta.SecondRunFindsNothing | multi_url_scheduled_crawler.py:345-377 | a second crawl over the same posts after the merge finds nothing new |
| Delta.SelectNone | multi_url_scheduled_crawler.py:330-343 | nothing is new when every crawled URL is empty or already stored |
| Delta.SelectDistinct | new/crawler_service.py:645-655 | the delta's URLs are distinct when the crawled ones are |
| Delta.MergeDistinct | new/crawler_service.py:770 | distinct URLs in the snapshot and in the crawl give distinct URLs in the merged snapshot |
| Delta.DistinctConcat | new/crawler_service.py:770 | two URL-distinct sequences with no common URL concatenate to a URL-distinct one |
| Delta.MergeRepeatsDuplicates | new/crawler_service.py:650-652 | the same new post crawled twice is stored twice by the merge |
| Delta.AcceptCons | scheduled_crawler.py:219-227 | one step: the first post is accepted when new, and its URL is then seen |
| Delta.AcceptAppend | scheduled_crawler.py:208-227 | a run over two page lists accepts from the first, then from the second with the grown seen set |
| Delta.AcceptMembers | scheduled_crawler.py:219 | accepted posts were crawled, have a URL and are new with respect to the URLs seen before |
| Delta.AcceptDistinct | scheduled_crawler.py:219-227 | accepted posts have pairwise-distinct URLs |
| Delta.AcceptComplete | scheduled_crawler.py:219-227 | every crawled post with an unseen URL has that URL accepted on its first occurrence |
| Delta.AcceptDistinctIsSelect | scheduled_crawler.py:219-227 | with distinct crawled URLs the growing set changes nothing: acceptance is `find_new_posts` |
| Delta.SelectIgnoresAbsent | scheduled_crawler.py:206 | a known URL that no crawled post carries does not change the selection |
| Delta.AcceptDeduplicates | scheduled_crawler.py:219-227 | the same URL crawled twice is accepted once |
| Queries.InCategory | new/crawler_service.py:673-674 | the category filter never adds posts |
| Queries.Matching | new/crawler_service.py:735-740 | the text filter never adds posts |
| Queries.InCategoryMembers | new/crawler_service.py:673-674 | a post is kept exactly when it is stored with that category |
| Queries.MatchingMembers | new/crawler_service.py:735-740 | a post is kept exactly when its lowered title or content contains the lowered query |
| Queries.InsertByDate | new/crawler_service.py:677 | inserting one post grows the list by one |
| Queries.SortByDate | new/crawler_service.py:677 | sorting keeps the number of posts |
| Queries.NewestFirstTail | new/crawler_service.py:677 | dropping the newest post keeps newest-first order |
| Queries.NewestFirstCons | new/crawler_service.py:677 | a post dated no earlier than all others may lead a newest-first list |
| Queries.InsertByDatePermutes | new/crawler_service.py:677 | insertion permutes: the multiset gains exactly the inserted post |
| Queries.InsertByDateBound | new/crawler_service.py:677 | inserting among posts dated no later than `b` keeps them no later than `b` |
| Queries.InsertByDateSorted | new/crawler_service.py:677 | inserting into a newest-first list keeps it newest first |
| Queries.SortByDateSpec | new/crawler_service.py:677 | `sorted(..., key=date, reverse=True)` is newest first and a permutation of its input |
| Queries.DatedOnAppend | new/crawler_service.py:677 | the posts of one date in a concatenation are those of each part |
| Queries.DatedOnNone | new/crawler_service.py:677 | a newest-first list whose head is older than `d` has no post dated `d` |
| Queries.InsertByDateStable | new/crawler_service.py:677 | insertion keeps the relative order of posts with equal dates |
| Queries.OlderThanAll | new/crawler_service.py:677 | a post inserted in front is dated strictly later than every other |
| Queries.SortByDateStable | new/crawler_service.py:677 | the sort is stable: posts sharing a date keep their relative order |
| Queries.Clamp | new/crawler_service.py:679-683 | a slice bound is clamped into the list |
| Queries.UpToSpec | new/crawler_service.py:682-683 | a positive limit bounds the length; a negative one drops that many from the end |
| Queries.FromSpec | new/crawler_service.py:679-680 | a non-negative offset drops that many posts; a negative one keeps that many from the end |
| Queries.NewestFirstSlice | new/crawler_service.py:679-683 | a contiguous run of a newest-first list is newest first |
| Queries.GetNoticesWindow | new/crawler_service.py:679-683 | `data[offset:]` then `data[:limit]`, each only when truthy: a positive offset skips exactly `min(offset, n)` posts and a negative one keeps that many from the end; a positive limit keeps the first `min(limit, rest)` of what remains, a negative one drops that many from its end, and no limit or 0 keeps the whole remaining suffix |
| Queries.GetNoticesSpec | new/crawler_service.py:667-685 | the page is a contiguous newest-first run of the category's posts, at most `limit` long for a positive limit, and everything with no offset and no limit |
| Queries.SearchSpec | new/crawler_service.py:723-746 | every result matches the query and the category; without a limit every matching post is found, each as often as stored |
| Queries.SearchMembers | new/crawler_service.py:723-746 | every search result is a stored post that matches the query, and belongs to the category when one is given |
| Queries.SearchOrdered | new/crawler_service.py:723-746 | search results come newest first, with or without a limit |
| Queries.SearchWithinFound | new/crawler_service.py:723-746 | every search result is one of the matching records of the category: sorting and the limit add none |
| Queries.Latest | new/crawler_service.py:748-753 | `data[:limit]` has `min(limit, len)` posts for a non-negative limit |
| Queries.LatestSpec | new/crawler_service.py:748-753 | the latest notices are a prefix of the newest-first ordering: stored posts, newest first, and no post left out is dated later than one returned |
| Queries.FindById | new/crawler_service.py:687-693 | the post found is stored with that id, and nothing is found exactly when no stored post has it |
| Queries.FindByIdFirst | new/crawler_service.py:687-693 | the post found is the first with that id |
| Summary.IndexOf | new/crawler_service.py:707-708 | the bucket found has the category, and none is found exactly when no bucket has it |
| Summary.TallyByCategory | new/crawler_service.py:704-710 | the counting loop yields `Tally` |
| Summary.FirstIndexNames | multi_url_scheduled_crawler.py:410-420 | a category has a first record exactly when it occurs in the snapshot |
| Summary.FirstIndexSnoc | multi_url_scheduled_crawler.py:410-420 | appending a record keeps the first position of a category already present, and a new category first appears at the end |
| Summary.FirstIndexHit | multi_url_scheduled_crawler.py:410-420 | the record at a category's first position has that category |
| Summary.TallyOrder | multi_url_scheduled_crawler.py:410-420 | the buckets come in the order their categories first appear (Python dict insertion order) |
| Summary.CategoryCountsOrder | multi_url_scheduled_crawler.py:410-420 | the counted categories are listed in order of first appearance in the snapshot, each named by a record |
| Summary.SumOfCountsIsSumCounts | multi_url_scheduled_crawler.py:410-420 | the counts add up as the buckets' counts do |
| Summary.CategoryCountsSpec | multi_url_scheduled_crawler.py:410-420 | each category once, each count the number of its posts (missing category counted as 'Unknown'), and the counts add up to `len(existing_data)` |
| Summary.SumCountsAppend | new/crawler_service.py:704-710 | bucket counts add over a concatenation |
| Summary.SumCountsUpdate | new/crawler_service.py:709 | adding one to a bucket adds one to the total |
| Summary.DatesInSnoc | new/crawler_service.py:710 | a post appended adds its date to its category's dates |
| Summary.DatesInAbsent | new/crawler_service.py:705-710 | a category not among the posts has no dates |
| Summary.NamesSnoc | new/crawler_service.py:706-708 | a post appended adds its category to the categories |
| Summary.BumpDistinct | new/crawler_service.py:708-710 | counting one more post keeps one bucket per category |
| Summary.BumpDates | new/crawler_service.py:705-710 | counting one more post keeps every bucket's count and dates exact |
| Summary.BumpNamesSum | new/crawler_service.py:705-710 | counting one more post adds its category to the names and one to the total |
| Summary.BumpTallies | new/crawler_service.py:705-710 | counting one more post keeps the tally exact |
| Summary.TallySpec | new/crawler_service.py:704-710 | the tally describes the snapshot exactly: one bucket per category with its count and dates, counts adding to the number of posts |
| Summary.InsertNameMembers | new/crawler_service.py:695-699 | inserting a name adds exactly that name |
| Summary.InsertNameBound | new/crawler_service.py:695-699 | inserting a name above `b` among names above `b` keeps them above `b` |
| Summary.AscendingCons | new/crawler_service.py:699 | a name below an ascending list's head may lead it |
| Summary.InsertNameSorted | new/crawler_service.py:699 | inserting keeps the list ascending without repeats |
| Summary.CategoryListSpec | new/crawler_service.py:695-699 | `sorted(set(categories))`: ascending, no repeats, exactly the snapshot's categories |
| Summary.MaxDate | new/crawler_service.py:714 | `max(dates)` is one of the dates and no date compares above it |
| Summary.Summaries | new/crawler_service.py:712-719 | one summary per bucket, in order |
| Summary.InsertByCountPermutes | new/crawler_service.py:721 | insertion permutes: the multiset gains exactly the inserted summary |
| Summary.InsertByCountBound | new/crawler_service.py:721 | inserting among summaries counted at most `b` keeps them at most `b` |
| Summary.MostFirstCons | new/crawler_service.py:721 | a summary counted no less than all others may lead a most-first list |
| Summary.InsertByCountSorted | new/crawler_service.py:721 | inserting into a most-first list keeps it most first |
| Summary.SortByCountSpec | new/crawler_service.py:721 | `sorted(summary, key=count, reverse=True)` is most first and a permutation |
| Summary.GetSummarySpec | new/crawler_service.py:701-721 | one entry per category, most numerous first; each counts its category's posts and reports the latest of their dates |
| Summary.SummaryEntries | new/crawler_service.py:701-721 | each summary entry names a category of the snapshot, counts at least one of its posts and reports the latest of their dates |
| Summary.SummaryCovers | new/crawler_service.py:701-721 | every category of the snapshot has a summary entry |
| Summary.BucketNonEmpty | new/crawler_service.py:704-714 | a category of the snapshot has at least one dated post, so `max(dates)` is defined |
| Summary.DistinctNamesCount | new/crawler_service.py:704-710 | buckets with distinct categories are as many as their categories |
| CrawlerService.ParsePageWith | new/crawler_service.py:173-192 | the dispatch yields `ParsePage`: the link parser for the program site, the table parser for department labels, `[]` otherwise |
| CrawlerService.NoticeService.constructor | new/crawler_service.py:25-47 | a service over the stored snapshot, idle, never run, nothing synced |
| CrawlerService.NoticeService.CrawlSingleUrl | new/crawler_service.py:557-612 | the page loop yields `CrawlSource`: pages 1..N in order; a raising request ends the loop keeping what was collected; a failing status or parse skips the page |
| CrawlerService.NoticeService.CrawlPage | new/crawler_service.py:571-604 | one page's outcome: abort when the request raises, skip on a bad status or parse, else its posts filled |
| CrawlerService.NoticeService.CrawlAllUrls | new/crawler_service.py:614-643 | the sequential branch yields the listings' posts listing after listing |
| CrawlerService.NoticeService.CrawlNewPosts | new/crawler_service.py:755-790 | status goes running then completed with the run time; the snapshot becomes `delta + old` (unchanged for an empty delta); saved and synced only for a non-empty delta |
| CrawlerService.NoticeService.Absorb | new/crawler_service.py:767-781 | a non-empty delta is put in front of the snapshot, saved, and handed to the sink when it is enabled and ready; an empty one changes nothing |
| CrawlerService.NoticeService.CrawlAllPosts | new/crawler_service.py:792-818 | the snapshot becomes exactly the fresh crawl, saved and synced, with status running then completed |
| CrawlerService.NoticeService.GetSummary | new/crawler_service.py:701-721 | the tally-and-sort steps yield `Summary.GetSummary` of the snapshot |
| CrawlerService.MergeKeepsDistinct | new/crawler_service.py:645-655 | distinct URLs in snapshot and crawl stay distinct after the merge |
| CrawlerService.AbortKeepsEarlierPages | new/crawler_service.py:579-583 | a listing whose request raises at page `k` keeps exactly the posts of pages before `k` |
| CrawlerService.FilledPosts | new/crawler_service.py:591-596 | posts without a URL are kept as parsed; the others carry their detail page's text |
| Notify.Messages | multi_url_scheduled_crawler.py:390-408 | one message per post |
| Notify.MessagesSpec | multi_url_scheduled_crawler.py:400-406 | the k-th message is the template filled from the k-th post |
| Notify.FormatAll | multi_url_scheduled_crawler.py:400-406 | the formatting loop yields `Messages` |
| MultiScheduled.DefaultMessage | multi_url_scheduled_crawler.py:399-406 | with the default template a message names the category (or 'Unknown') and the title |
| MultiScheduled.NotificationsSpec | multi_url_scheduled_crawler.py:390-408 | nothing is announced unless enabled with a non-empty webhook URL; otherwise every post is, in order, unless the template has a field other than `{category}` and `{title}`, which raises exactly when there is a post |
| MultiScheduled.NoPageStops | multi_url_scheduled_crawler.py:260-284 | no page ends a listing's crawl: every failure is inside the per-page try |
| MultiScheduled.FailingPageSkipped | multi_url_scheduled_crawler.py:260-284 | a failing page is skipped and later pages are still crawled |
| MultiScheduled.PageCountBound | multi_url_scheduled_crawler.py:109-118 | the count is at most `max_pages` with a marker and 1 without |
| MultiScheduled.MultiScheduledCrawler.constructor | multi_url_scheduled_crawler.py:26-49 | a crawler over the stored snapshot with nothing persisted or notified since |
| MultiScheduled.MultiScheduledCrawler.CrawlSingleUrl | multi_url_scheduled_crawler.py:243-291 | the page loop yields `CrawlSource`: `[]` when the first page or its count fails, else pages 1..N with failing pages skipped |
| MultiScheduled.MultiScheduledCrawler.CrawlPage | multi_url_scheduled_crawler.py:263-284 | one page's outcome: skip on any failure, else its posts filled |
| MultiScheduled.MultiScheduledCrawler.CrawlAllUrls | multi_url_scheduled_crawler.py:293-328 | the listings' posts, listing after listing |
| MultiScheduled.MultiScheduledCrawler.CrawlNewPosts | multi_url_scheduled_crawler.py:345-377 | a non-empty delta goes in front of the snapshot, is saved and announced, and is returned; an unformattable template makes the run return `[]` after the snapshot was replaced; an empty delta changes nothing |
| MultiScheduled.MultiScheduledCrawler.RunFullCrawl | multi_url_scheduled_crawler.py:478-490 | the snapshot becomes exactly the fresh crawl, saved and returned |
| MultiScheduled.MultiScheduledCrawler.SendNotifications | multi_url_scheduled_crawler.py:390-408 | returns the messages `Notifications` announces, or the exception `format` raises |
| MultiScheduled.MultiScheduledCrawler.SummaryByCategory | multi_url_scheduled_crawler.py:410-420 | the counting loop yields `Summary.CategoryCounts` of the snapshot |
| MultiScheduled.SecondRunFindsNothing | multi_url_scheduled_crawler.py:345-377 | an immediate second run over the same crawl finds nothing new |
| Scheduled.AnnouncementsSpec | scheduled_crawler.py:269-284 | a title-only template announces every post in order; a `{category}` or other field fails as soon as there is a post |
| Scheduled.AcceptedSpec | scheduled_crawler.py:206-227 | accepted posts were crawled, have a URL no stored post has, have distinct URLs, and carry their detail text |
| Scheduled.MergeKeepsDistinct | scheduled_crawler.py:238-252 | with distinct stored URLs the snapshot after a run keeps distinct URLs |
| Scheduled.FailingPageSkipped | scheduled_crawler.py:208-236 | a failing page is skipped and later pages are still visited |
| Scheduled.ScheduledCrawler.constructor | scheduled_crawler.py:22-36 | a crawler over the stored snapshot with nothing persisted or notified since |
| Scheduled.ScheduledCrawler.CrawlNewPosts | scheduled_crawler.py:189-256 | accepted posts go in front of the snapshot, which is saved; they are announced and returned, or `[]` when the announcement raises; no acceptance or an early failure leaves the snapshot |
| Scheduled.ScheduledCrawler.CollectNewPosts | scheduled_crawler.py:206-236 | the page loop with the growing seen set yields `Accepted` |
| Scheduled.ScheduledCrawler.FetchPage | scheduled_crawler.py:212-215 | one page's request and parse yield its outcome |
| Scheduled.ScheduledCrawler.AcceptPage | scheduled_crawler.py:217-227 | the row loop yields the page's accepted posts, filled, and the seen set grown by their URLs |
| Scheduled.ScheduledCrawler.SendNotifications | scheduled_crawler.py:269-284 | returns `Announcements` of the configured template |
| MultiCrawler.PageCountBound | multi_url_crawler.py:154 | the call-site clamp bounds the count by `max_pages` even without a marker |
| MultiCrawler.ClampWithoutMarker | multi_url_crawler.py:42-51 | with `max_pages` 0 and no marker this crawler visits no page where the scheduled crawlers visit page 1 |
| MultiCrawler.FailingPageSkipped | multi_url_crawler.py:158-180 | a failing page is skipped and later pages are still crawled |
| MultiCrawler.CrawlAllSize | multi_url_crawler.py:189-224 | a crawl holds as many posts as its listings returned together |
| MultiCrawler.MultiUrlCrawler.constructor | multi_url_crawler.py:23-40 | a crawler over the configured listings with nothing collected |
| MultiCrawler.MultiUrlCrawler.CrawlSingleUrl | multi_url_crawler.py:141-187 | the page loop yields `CrawlSource`: failing pages skipped, posts with a URL filled with their detail text |
| MultiCrawler.MultiUrlCrawler.CrawlPage | multi_url_crawler.py:158-180 | one page's outcome: skip on any failure, else its posts filled |
| MultiCrawler.MultiUrlCrawler.CrawlAllUrls | multi_url_crawler.py:189-224 | `all_data` is extended by the crawl, never reset, and the accumulated list is returned |
| MultiCrawler.MultiUrlCrawler.SummaryByCategory | multi_url_crawler.py:243-253 | the counting loop yields `Summary.CategoryCounts` of `all_data` |
| BasicCrawler.PrefixedAssoc | crawler.py:189-219 | collecting data in two steps equals collecting it at once |
| BasicCrawler.PrefixedNothing | crawler.py:176 | collecting onto an empty list keeps the result |
| BasicCrawler.WalkBreak | crawler.py:217-219 | a `break` at page `k` keeps exactly what the earlier pages collected |
| BasicCrawler.WalkCrash | crawler.py:189-219 | a parse crash at page `k` fails the whole run: earlier pages are lost |
| BasicCrawler.WalkAll | crawler.py:189-213 | without break or crash the data is every page's posts, in order |
| BasicCrawler.RunIgnoresCount | crawler.py:185-186 | the page count is read only for its failure: the walk always covers pages 1 and 2 |
| BasicCrawler.FirstPageBreak | crawler.py:189-219 | a failing request for page 1 ends the run with nothing to save |
| BasicCrawler.FillSpec | crawler.py:205-210 | posts without a URL get no content key; a post with a URL gets the detail text only when the detail page could be read |
| BasicCrawler.CrawlBoard | crawler.py:171-237 | the loop with its `break` yields `Run`: crash, refused status, or the data collected |
| BasicCrawler.CrawlPage | crawler.py:196-219 | one page's step: break on a request failure, crash on a missing table body, else the filled posts |
| Firebase.DocIdSpec | new/firebase_service.py:209-217 | the id is `category_number_` followed by the digits of `abs(hash(key))`, the key being the URL when set |
| Firebase.ApplyAllSnoc | new/firebase_service.py:165-177 | one more staged write updates its id on top of the earlier ones |
| Firebase.StageAllLast | new/firebase_service.py:135-186 | the loop state after a notice is one step from the state before it |
| Firebase.StageAllCounts | new/firebase_service.py:158-186 | `batch_count` equals the staged writes and failures never exceed the notices |
| Firebase.BatchTotals | new/firebase_service.py:193-207 | on every path `success + failed == total == len(notices)` with both non-negative; a failing final commit reports success 0 |
| Firebase.FailedCommitKeepsBatch | new/firebase_service.py:172-186 | a commit that raises at 500 counts its notice failed without resetting the batch, so the next notice attempts a 501-write commit and also fails |
| Firebase.Details | new/firebase_service.py:164-186 | one detail per notice |
| Firebase.DetailsSpec | new/firebase_service.py:164-186 | the k-th detail is pending with the id when staging succeeded, failed otherwise |
| Firebase.SumOfSnoc | new/firebase_service.py:172-176 | committed sizes add one commit at a time |
| Firebase.StageSettled | new/firebase_service.py:135-186 | with commits succeeding, one notice keeps the batch under 500, every commit at exactly 500, and every kept write staged or committed in order |
| Firebase.StageAllCommitted | new/firebase_service.py:135-186 | with commits succeeding the details are one per notice, failures are the staging failures, commits hold 500 writes, and committed plus staged writes are all kept writes |
| Firebase.BatchCommitted | new/firebase_service.py:119-207 | with commits succeeding the collection ends with every kept write applied in order and the report counts only staging failures |
| Firebase.InCategoryMembers | new/firebase_service.py:245-246 | the category query keeps exactly the documents of that category |
| Firebase.MatchingDocsMembers | new/firebase_service.py:256-267 | the text filter keeps exactly the documents whose lowered title or content holds the lowered query |
| Firebase.MatchingDocsAppend | new/firebase_service.py:256-267 | filtering two document streams one after the other keeps the matches of each, in order |
| Firebase.MatchingDocsStep | new/firebase_service.py:256-267 | one more streamed document is kept exactly when it matches the query |
| Firebase.SearchSpec | new/firebase_service.py:238-276 | results are streamed documents of the category that match, at most `limit` of them, and the limit applies before the filter |
| Firebase.FirebaseService.constructor | new/firebase_service.py:25-65 | initialized exactly when sync is 'true' ignoring case, the three settings are non-empty and the app starts |
| Firebase.FirebaseService.SaveNotice | new/firebase_service.py:71-117 | without initialisation or on a Firestore failure nothing is written and `None` returned; otherwise the doc is updated or created under its id, which is returned |
| Firebase.FirebaseService.SaveNoticesBatch | new/firebase_service.py:119-207 | not initialized: success 0, all failed, no total, no details; otherwise the report and collection of the staged, 500-at-a-time committed loop |
| Firebase.FirebaseService.CommitWrites | new/firebase_service.py:172-191 | a commit applies the staged writes in order |
| Firebase.SearchSaved | new/firebase_service.py:244-273 | over the collection as streamed, every result is a saved document as saved; with no category and no limit every saved document the query matches is found |
| Firebase.FirebaseService.SearchNotices | new/firebase_service.py:238-276 | `[]` without initialisation or on failure, else the filtered window `Search` of the saved collection: only saved documents, and every matching one when there is no category and no limit |
| Firebase.FirebaseService.TestConnection | new/firebase_service.py:372-385 | false without initialisation, else whether the probe query succeeds |
| Scheduler.SchedulerService.constructor | new/scheduler_service.py:15-22 | a new service is stopped, has no callback, and takes its interval from the setting (default 5) |
| Scheduler.SchedulerService.SetCrawlCallback | new/scheduler_service.py:24-27 | the callback is set and nothing else changes |
| Scheduler.SchedulerService.Start | new/scheduler_service.py:67-81 | nothing changes when running or without a callback; otherwise running with the thread started |
| Scheduler.SchedulerService.Stop | new/scheduler_service.py:83-95 | nothing changes when stopped; otherwise stopped with the jobs cleared |
| Scheduler.SchedulerService.ForceStop | new/scheduler_service.py:101-109 | stopped with the jobs cleared, whatever the state |
| Scheduler.SchedulerService.GetStatus | new/scheduler_service.py:111-123 | reports the stored flag, interval and callback presence unchanged; a next run exactly when jobs exist (in the model, only while running) |
| Scheduler.SchedulerService.UpdateInterval | new/scheduler_service.py:125-140 | under one minute: false and no change; otherwise true, interval stored, job replaced only when running |
| Scheduler.SchedulerService.RunNow | new/scheduler_service.py:142-192 | false without a callback; otherwise the callback runs once and the result is whether it finished in time without raising, whether or not the scheduler runs |

## Left out

- Threads: `ThreadPoolExecutor` and `as_completed` order are not modelled. The crawlers' sequential branch (new/crawler_service.py:635-638) is the reference order.
- Concurrency more broadly: the scheduler thread, its sleeps and `schedule`'s timing; asyncio event loops; join timeouts; the data lock.
- Politeness delays (`time.sleep`).
- URL resolution: `urljoin` (reference resolution per section 5.2 of RFC 3986) is an uninterpreted argument.
- Python's `hash`: it is seeded per process, so it is an argument. As a result, ids are equal only within one run.
- HTML parsing: BeautifulSoup traversal is replaced by documents given as plain data. `response.text` decoding and `response.encoding` are not modelled.
- Unicode: `str.lower` is modelled over ASCII letters and `str.isdigit` over ASCII digits. White space is the full set `str.isspace()` accepts.
- JSON persistence and configuration: `load_config`, `load_existing_data` and `save_data` are left out. The configuration is given to the constructors, and `save_data` is the ghost `persisted := snapshot`. A failing `save_data` only logs, so it is not modelled.
- Dead code: the selector loop of `get_total_pages` at new/crawler_service.py:143-163 passes CSS selectors as class names, so it never matches. It is treated as "no marker".
- Dead code: the selector loop of `_get_swuniv_content` at new/crawler_service.py:478-499 does the same. The model keeps the loop, but it looks up `div`s whose class is the literal string (`div.content` and so on), which the site's pages do not carry. So the text comes from the fallbacks of lines 502-521 (`Detail.SwunivFallbackSpec`).
- Dead code: `_parse_swuniv_alternative` at new/crawler_service.py:329-375 is called from nowhere in the service. It is still modelled, as `Listing.ParseAlternative`.
- Unreachable branch: the `"error"` status of `crawl_new_posts` / `crawl_all_posts` in new/crawler_service.py cannot be reached, because every failure inside the crawl is caught where it happens.
- Notify.Format: templates are sequences of literal text, `{category}`, `{title}` and other fields. Any other field raises, because no caller passes an argument for it. Format specs, conversions and `{{`/`}}` escapes are not modelled.
- Firebase.FailedCommitKeepsBatch: that a commit of more than 500 writes fails is an assumption about Firestore, built into `Firebase.Commits`. The program only names the limit in a comment (new/firebase_service.py:132) and does not enforce it; the second failure of this lemma rests on that assumption.
- Firebase.FirebaseService.SaveNotice: `update` with the full document is modelled as replacing it, which is what `set` does. Firestore's field-merge semantics are not modelled.
- Firebase.DocId: the `'0'` default for a missing number is not modelled, because every record carries a number.
- Firebase.FirebaseService.SearchNotices:
  - the stream order of `order_by('firebase_created_at')` is given as the input sequence, which holds each saved document of `store` once (`Firebase.StreamOf`), but in no order the model states;
  - a negative `limit` is not modelled (`limit` is a `nat`).
- Firestore reads that no crawler path uses: `get_notice_by_id`, `get_notices_by_category`, `get_latest_notices`, `get_collection_stats` and `cleanup` of new/firebase_service.py.
- `_initialize_firebase`:
  - only the guard is modelled;
  - credential construction and `firebase_admin.initialize_app` are a single "app starts" flag;
  - environment reads are the `Env` record.
- Scheduler.SchedulerService.Start: the job that the scheduler thread registers (`schedule.every(...)`) is not modelled, because the thread is not. So `jobs` changes only through `update_interval`, `stop` and `force_stop`.
- Scheduler.SchedulerService.GetStatus: "a next run only while running" and `Valid`'s "a stopped service has no jobs" hold of the model only. In the program, `stop` joins the thread for at most three seconds before `schedule.clear()` (new/scheduler_service.py:83-95), and a thread still in its first crawl registers its job afterwards (line 41). A stopped service can then report a next run, and a restart holds two jobs.
- Scheduler: `stop_scheduler` is an alias of `stop` and is not modelled separately. `_run_scheduler` and `_execute_crawl` are thread bodies; the crawl they trigger is the crawlers' own model.
- Scheduler.SchedulerService.constructor: `int(os.getenv('CRAWL_INTERVAL_MINUTES', 5))` is given as an optional integer. Parse errors of the setting are not modelled.
- The wrappers of `new/crawler_service.py` that only forward calls are not modelled:
  - to the scheduler and Firebase services (`start_scheduler`, `stop_scheduler`, `get_scheduler_status`, `update_crawl_interval`, `run_crawl_now`, `get_firebase_stats`, `sync_to_firebase`, `test_firebase_connection`);
  - to `get_crawl_status`, which only reads the fields.
- Presentation and entry points: new/app.py (the web layer), the CLI `main` functions, `print_summary`, `run_once`, `start_scheduler` loops, and the setup and run scripts.
- Summary.GetSummarySpec: among categories with equal counts, the order of the result follows first appearance in the snapshot (Python dict order, kept by the stable sort). The lemma proves counts in descending order and a permutation. The tie order is not stated.
