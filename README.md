# Portfolio mention pipeline — a Dafny model

company-tracker watches the news and LinkedIn for mentions of a venture fund's
portfolio companies. Each monitor (`NewsMonitor`, `CompleteNewsMonitor`,
`MinimalNewsMonitor`, `FreeLinkedInMonitor`, `LinkedInMonitor`) fetches
articles or search results per company keyword. It classifies each one with
its own relevance rule and hands the survivors to the SQLite store
`MentionDatabase.add_mention`, which refuses a mention whose MD5 fingerprint
of title|url|company or whose url is already stored. The newly stored mentions
go to one of three alert systems (`AlertSystem`, `MinimalAlertSystem`,
`SlackAlertSystem`). These format, group and cap the mentions per company,
send them, and record one alert row per channel and stored mention. A purge
deletes known false positives for Finch and Cerebra. It runs either inside
the store or as the stand-alone script `cleanup_production.py`.

The model follows the source file by file, one module per file:

- `MentionStore` (store.dfy) models the store. `MentionDatabase` is a class whose fields are the three tables (sequences of rows in rowid order) and their AUTOINCREMENT counters. Its ghost `Valid()` holds the UNIQUE constraints on hash and url and the fingerprint of every row.
- `Cleanup` (cleanup.dfy) models the purge script.
- Five modules model the monitors: `NewsMonitor`, `CompleteNewsMonitor`, `MinimalNewsMonitor`, `FreeLinkedInMonitor` and `LinkedInMonitor` (the last two are the LinkedIn monitors). Each holds its relevance predicate, the lemmas that characterise it, its fetch adapters (the network answers are function parameters) and its `MonitorAllCompanies` method.
- `Pipeline` (pipeline.dfy) holds the storing loop that every `monitor_all_companies` shares.
- The alert systems are modelled by `AlertSystem`, `MinimalAlertSystem` and `SlackAlertSystem`, with `Alerting` holding what they share.
- `Ordered` models Python's insertion-ordered dicts (the grouping and counting loops) and list comprehensions with a condition.
- `Text` holds the string helpers: `in`, `.lower()`, `\b`, `split`, `[:n] + '...'`.
- `Feeds` holds the fetched-entry records and the scan-with-exception loop of the adapters.

The store's purge and the script disagree on Cerebra. Only the store's list
contains the bare pattern "cerebral". So a Cerebra row titled "Cerebral" is
deleted by `clean_false_positives` in database.py but kept by the script
(`Cleanup.CerebralKeptByScriptOnly`). Both lists are modelled as written.

## Model

| member | source | states |
|---|---|---|
| MentionStore.SeparatorShiftCollides | database.py:97-100 | Moving a '\|' from the end of the title to the front of the url gives a different triple with the same fingerprint, whatever MD5 is. |
| MentionStore.Insert | database.py:109-145 | add_mention on a table value returns None exactly when the fingerprint or the url is already stored, and then leaves the table as it was. Otherwise it appends exactly one row with the next id, '' for a missing content or published date, NULL for a missing sentiment, and returns that id. |
| MentionStore.InsertKeepsValid | database.py:24-37 | A successful insert keeps the table invariant: ids strictly increasing below the counter, hash and url unique, every hash the fingerprint of its row. |
| MentionStore.InsertBlocks | database.py:111-119 | After any add_mention attempt the triple's fingerprint or its url is in the table. |
| MentionStore.InsertTwice | database.py:111-119 | Adding the same mention twice stores one row: the second call returns None and changes nothing. |
| MentionStore.CollidingTripleRefused | database.py:97-119 | Once a triple is stored, a triple with a different title and a new url whose joined string coincides is refused. |
| MentionStore.MentionDatabase.constructor | database.py:14-71 | A new store has three empty tables and satisfies the invariant. |
| MentionStore.MentionDatabase.MentionExists | database.py:102-107 | True iff some stored row has that hash. |
| MentionStore.MentionDatabase.AddMention | database.py:109-145 | The new mentions table and the returned id are those of `Insert` on the old table, the invariant holds again, and the alerts and companies tables are untouched. |
| MentionStore.SortNewestFirst | database.py:147-158 | `ORDER BY created_at DESC`: the result is ordered by non-increasing created_at and is a permutation of its input. |
| MentionStore.OfCompany | database.py:160-172 | `WHERE company_name = ?` keeps exactly the rows of that company, as a sub-multiset of the table. |
| MentionStore.CreatedSince | database.py:147-158 | `WHERE created_at >= since` keeps exactly the rows created at or after the bound. |
| MentionStore.Limit | database.py:160-172 | `LIMIT n` keeps a prefix of length n, or the whole list when n is negative or at least its length. |
| MentionStore.SortedMembers | database.py:147-172 | Sorting keeps exactly the rows it was given. |
| MentionStore.LimitSorted | database.py:160-172 | A limited sorted list is still newest first and holds only rows of the input, and no row it drops is newer than a row it keeps. |
| MentionStore.MentionDatabase.RecentMentions | database.py:147-158 | get_recent_mentions returns exactly the rows created in the last `hours` hours, newest first, each as often as in the table. |
| MentionStore.MentionDatabase.MentionsByCompany | database.py:160-172 | get_mentions_by_company returns only that company's rows, newest first, min(limit, count) of them (all when the limit is negative), and all of them when the limit does not cut. A row of the company that is left out is never newer than a row that is returned. |
| MentionStore.SortByCountDesc | database.py:243-270 | `ORDER BY count DESC` gives a permutation of the counts in non-increasing count order. |
| MentionStore.TotalSortByCountDesc | database.py:243-270 | Reordering the counts keeps their sum. |
| MentionStore.MentionDatabase.Statistics | database.py:238-277 | total_mentions is the table size. recent_mentions_24h counts the rows of the last 24 hours. The company and source counts are the grouped counts of the table in descending order, and each sums to total_mentions. |
| MentionStore.WithStatusAbsent | database.py:184-193 | An UPDATE whose id names no row leaves the alerts table as it was. |
| MentionStore.WithStatusKeepsValid | database.py:184-193 | The UPDATE keeps every row's id, mention id and alert type, and the table invariant. Because ids are distinct it changes at most one row: the one with that id, which then has the new status, sent_at and error_message. |
| MentionStore.MentionDatabase.AddAlertRecord | database.py:174-182 | Appends exactly one alert row with the next id, the given mention id, type and status (default 'pending'), no sent_at and no error. Nothing else changes. |
| MentionStore.MentionDatabase.UpdateAlertStatus | database.py:184-193 | The alerts table becomes `WithStatus` of the old one. Ids, counters and the other tables are unchanged. |
| MentionStore.Survivors | database.py:217-232 | The rows one DELETE per pattern leaves: never more than before. |
| MentionStore.SurvivorsMembers | database.py:217-232 | A row survives iff it is in the table and is not a row of that company whose lower-cased title or content contains one of the patterns. |
| MentionStore.SurvivorsStep | database.py:217-232 | One more DELETE on what the earlier ones left is the purge with one more pattern. |
| MentionStore.SurvivorsIdempotent | database.py:217-232 | A second purge with the same patterns deletes nothing. |
| MentionStore.SurvivorsUnmatched | database.py:217-232 | A purge that matches no row leaves the table unchanged. |
| MentionStore.TwoPurgesMembers | database.py:195-236 | After the Finch purge and then the Cerebra purge, exactly the rows neither matched remain. |
| MentionStore.SurvivorsKeepValid | database.py:217-232 | Deleting rows keeps the table invariant. |
| MentionStore.MentionDatabase.DeleteMatching | database.py:217-232 | One DELETE: the table becomes the survivors of that pattern, and the rowcount is the number of rows removed. |
| MentionStore.MentionDatabase.DeleteAll | database.py:217-232 | The loop over a company's patterns: the table becomes the survivors of all of them, and the summed rowcounts equal the rows removed. |
| MentionStore.MentionDatabase.CleanFalsePositives | database.py:195-236 | The Finch patterns, then the Cerebra patterns, are purged. The returned count equals the rows removed, and the invariant holds. |
| MentionStore.WithoutName | database.py:73-95 | INSERT OR REPLACE first drops exactly the rows holding the name. |
| MentionStore.UpsertKeepsValid | database.py:73-95 | An upsert keeps one row per company name, ids increasing. |
| MentionStore.PopulateAllKeepsValid | database.py:73-95 | The whole populate loop keeps the companies invariant. |
| MentionStore.PopulateLastWins | database.py:73-95 | The last insertable entry for a name is what the table holds for it. |
| MentionStore.PopulateAllNames | database.py:73-95 | A name is in the table afterwards iff it was before or some entry stores it. |
| MentionStore.MentionDatabase.PopulatePortfolioCompanies | database.py:73-95 | Raises (and rolls back) exactly when an entry has no name key. Otherwise the companies table is the upsert of every entry in order. |
| Cleanup.ProductionSurvivorsMembers | cleanup_production.py:30-68 | A row is removed iff it is a Finch row matching a Finch pattern or a Cerebra row matching a Cerebra pattern of the script's lists. |
| Cleanup.ProductionKeepsOtherCompanies | cleanup_production.py:47-68 | Rows of any company other than 'Finch' and 'Cerebra' are never deleted. |
| Cleanup.ProductionIdempotent | cleanup_production.py:47-81 | A second run on the result deletes nothing. |
| Cleanup.CleanFalsePositivesProduction | cleanup_production.py:16-85 | On an exception, returns 0 with the table unchanged. Otherwise the table becomes the script's survivors, and the count equals total_before − total_after. |
| Cleanup.CerebralMatchesNoScriptPattern | cleanup_production.py:38-42 | No pattern of the script's Cerebra list occurs in "cerebral". |
| Cleanup.CerebralKeptByScriptOnly | cleanup_production.py:38-42 | A Cerebra row titled "Cerebral" without content is purged by the store's list but kept by the script's. |
| Cleanup.CerebralPurgedByStore | database.py:209-212 | A Cerebra row titled "Cerebral" is purged by the store's list. |
| Text.ContainsIffOccurs | news_monitor.py:137-141 | The scanning definition of `p in s` holds iff p occurs at some index. |
| Text.ContainsAppend | news_monitor_minimal.py:115-130 | Text added on either side never destroys an occurrence. |
| Text.FirstContainedIff | news_monitor.py:221-243 | The early-return loop `for t in terms: if t in s: return True` returns True iff some term occurs. |
| Text.LowerStrIdempotent | news_monitor.py:137-141 | Lower-casing twice is lower-casing once. |
| Text.ContainsWordContains | news_monitor_complete.py:163-170 | A whole-word match (`\b` on both sides) is a substring match. |
| Text.Elide | alerts_slack.py:124-126 | `s[:keep] + '...' if len(s) > limit else s`: the string itself up to the limit, otherwise its first `keep` characters and '...'. |
| Text.Split | config.py:53 | `split(',')` always gives at least one part, and no part contains the separator. |
| Text.JoinSplit | config.py:53 | Joining the parts of a split with the separator gives back the string. |
| Text.RemoveChar | linkedin_monitor_free.py:119-123 | `replace(c, '')` removes every c and keeps each other character as often as it occurs. |
| Text.RemoveCharJoinSplit | linkedin_monitor_free.py:119-123 | `s.replace(c, '')` equals `''.join(s.split(c))`, so the other characters also keep their order. |
| Text.ReplaceCharJoinSplit | linkedin_monitor.py:137 | `s.replace(a, b)` equals `b.join(s.split(a))`. |
| Text.ReplaceCharRoundTrip | linkedin_monitor.py:137 | When s does not contain b, replacing b by a undoes replacing a by b. |
| Feeds.Take | news_monitor_complete.py:37 | `s[:n]` is a prefix of length min(n, len(s)). |
| Feeds.Scan | news_monitor_minimal.py:45-65 | The append loop over a feed, which stops at the first entry that raises, yields at most one mention per entry. |
| Feeds.ScanEmitted | news_monitor_minimal.py:45-65 | Every mention the loop yields is the mention some entry emits. |
| Feeds.ScanNoRaise | news_monitor_minimal.py:45-65 | Without a raising entry, the loop yields exactly the emitted mentions, in feed order. |
| Feeds.ScanAll | news_monitor_minimal.py:45-65 | A property every emitted mention has holds of everything the loop yields. |
| Feeds.ScanEntries | news_monitor_minimal.py:45-65 | The imperative loop yields `Scan` of the feed. |
| Feeds.SearchKeywords | news_monitor_minimal.py:32-67 | The nested keyword/entry loops yield the concatenation of each keyword's scan. |
| Feeds.CollectBound | news_monitor.py:89-125 | When each keyword yields at most b mentions, the keywords together yield at most (number of keywords) × b. |
| Feeds.CollectAll | news_monitor.py:89-125 | A property of every per-keyword result holds of the collected list. |
| Feeds.CollectCongruent | news_monitor_complete.py:37 | Only the fetched results of the queried keywords matter. |
| NewsMonitor.FullTextLower | news_monitor.py:137-141 | The text the filters see is already lower-case. |
| NewsMonitor.KeywordHitIff | news_monitor.py:143-155 | The keyword loop fires iff some lower-cased keyword occurs in the lower-cased title or description. |
| NewsMonitor.IsRelevantIff | news_monitor.py:133-157 | _is_relevant_mention is the conjunction of three conditions: a keyword or name trigger, the company-specific filter, and the generic check. |
| NewsMonitor.CompanySpecificFilterIff | news_monitor.py:159-214 | For Finch: no person indicator and some business keyword. For Cerebra: no medical indicator and some AI keyword. Every other company passes. |
| NewsMonitor.AdditionalRelevanceCheckIff | news_monitor.py:216-243 | False whenever a false-positive term occurs. Otherwise true iff some business indicator occurs. |
| NewsMonitor.FinchPersonRejects | news_monitor.py:164-180 | A person indicator anywhere rejects a Finch article, whatever business terms it has. |
| NewsMonitor.FinchNeedsBusiness | news_monitor.py:182-190 | A Finch article without a business keyword is rejected. |
| NewsMonitor.CerebraMedicalRejects | news_monitor.py:192-202 | A medical indicator rejects a Cerebra article. |
| NewsMonitor.CerebraNeedsAi | news_monitor.py:204-212 | A Cerebra article without AI context is rejected. |
| NewsMonitor.OtherCompaniesUnfiltered | news_monitor.py:214 | For any other company only the trigger and the generic check decide. |
| NewsMonitor.FalsePositiveVetoes | news_monitor.py:220-229 | A false-positive term vetoes, even next to business terms. |
| NewsMonitor.SaidHasBusinessContext | news_monitor.py:231-243 | 'ai' inside 'said' passes the generic check. |
| NewsMonitor.SearchNewsApi | news_monitor.py:36-87 | Without an API key, nothing is returned. |
| NewsMonitor.SearchNewsApiSound | news_monitor.py:36-87 | Every NewsAPI mention is a relevant article of the company. |
| NewsMonitor.NullTextStopsScan | news_monitor.py:64-85 | An article whose title or description is JSON null raises at `.lower()` in `_is_relevant_mention`. The per-keyword `except` ends that keyword's article loop, so no mention comes from it or from the articles after it. |
| NewsMonitor.NullUrlNeverStored | news_monitor.py:64-76 | A relevant article whose url is JSON null yields no mention, and the scan goes on with the next article. In the source, add_mention refuses such a mention because the url column is NOT NULL (database.py:30, 143-145). |
| NewsMonitor.SearchGoogleNewsSound | news_monitor.py:89-125 | Every Google News mention is a relevant article of the company. |
| NewsMonitor.SearchGoogleNewsBound | news_monitor.py:89-125 | At most MAX_ARTICLES_PER_CHECK mentions per keyword. |
| NewsMonitor.MonitorAllCompanies | news_monitor.py:245-273 | Returns exactly the candidates add_mention stored, in company order, each tagged with its id. The store is as if they had been added one by one. |
| NewsMonitor.GetTrendingMentions | news_monitor.py:275-312 | total_mentions is the number of recent rows. The company and source counts are the grouped counts of those rows, and each sums to the total. |
| CompleteNewsMonitor.IsRelevantMention | news_monitor_complete.py:136-189 | The imperative classifier, with its identifier loops, returns the relevance predicate. |
| CompleteNewsMonitor.CollectIdentifiers | news_monitor_complete.py:173-183 | The loop builds exactly the qualifying lower-cased keywords, in order. |
| CompleteNewsMonitor.ScanIdentifiers | news_monitor_complete.py:185-187 | The loop returns True iff some identifier occurs in the text. |
| CompleteNewsMonitor.SpecificIdentifiersMembers | news_monitor_complete.py:173-183 | The identifiers are exactly the lower-cased keywords that contain '.com' or are in the fixed slug list. |
| CompleteNewsMonitor.CoquiIff | news_monitor_complete.py:143-148 | For Coqui, relevant iff a tech indicator occurs. Name and keywords play no role. |
| CompleteNewsMonitor.BlueDotNegativeRejects | news_monitor_complete.py:150-155 | For The Blue Dot, a negative indicator rejects, whatever else the text says. |
| CompleteNewsMonitor.BlueDotIff | news_monitor_complete.py:157-161 | Without a negative indicator, The Blue Dot is relevant iff a company indicator occurs. |
| CompleteNewsMonitor.OtherCompaniesIff | news_monitor_complete.py:163-189 | Any other company is relevant iff its lower-cased name is a whole word of the text or an identifier occurs. Otherwise it is rejected. |
| CompleteNewsMonitor.IdentifierSuffices | news_monitor_complete.py:173-187 | One identifier anywhere as a raw substring makes the article relevant. |
| CompleteNewsMonitor.EmbeddedNameIsNoWord | news_monitor_complete.py:163-170 | "finchx" contains "finch", but not as a whole word. |
| CompleteNewsMonitor.EmbeddedNameNotRelevant | news_monitor_complete.py:163-189 | So "finchx" is not an article about Finch when Finch's only keyword is its name. |
| CompleteNewsMonitor.FinchHasNoIdentifiers | news_monitor_complete.py:173-183 | The keyword "Finch" yields no identifier. |
| CompleteNewsMonitor.SearchNewsApiIfAvailable | news_monitor_complete.py:78-81 | Without an API key, nothing is returned. |
| CompleteNewsMonitor.SearchGoogleNewsRssBound | news_monitor_complete.py:32-76 | At most two keywords of MAX_ARTICLES_PER_CHECK entries each. |
| CompleteNewsMonitor.SearchGoogleNewsRssFirstTwo | news_monitor_complete.py:37 | Only the feeds of the first two keywords are read. |
| CompleteNewsMonitor.SearchNewsApiFirstKeyword | news_monitor_complete.py:88 | Only the NewsAPI answer for the first keyword is read. |
| CompleteNewsMonitor.NullTextEndsSearch | news_monitor_complete.py:104-131 | An article whose title or description is JSON null raises at `.lower()`. The `except` around the whole search ends it, so no mention comes from that article or the ones after it. |
| CompleteNewsMonitor.NullUrlNeverStored | news_monitor_complete.py:104-127 | A relevant article whose url is JSON null yields no mention, and the scan goes on with the next article. In the source, add_mention refuses such a mention because the url column is NOT NULL (database.py:30, 143-145). |
| CompleteNewsMonitor.SearchGoogleNewsRssSound | news_monitor_complete.py:32-76 | Every Google News mention is a relevant article of the company. |
| CompleteNewsMonitor.MonitorAllCompanies | news_monitor_complete.py:191-224 | Returns exactly the stored candidates, in company order, each tagged with its id. The store is as if they had been added one by one. |
| MinimalNewsMonitor.KeywordMentionedIff | news_monitor_minimal.py:126-128 | The keyword loop returns True iff some keyword is mentioned. |
| MinimalNewsMonitor.IsRelevantIff | news_monitor_minimal.py:115-130 | Relevant iff the lower-cased name or some lower-cased keyword occurs in the lower-cased title or description. |
| MinimalNewsMonitor.NameInTitle | news_monitor_minimal.py:121-123 | A title containing the name, in any case, is always relevant. |
| MinimalNewsMonitor.Monotone | news_monitor_minimal.py:115-130 | Adding text around the title or the description never loses relevance. |
| MinimalNewsMonitor.EmptyWordMatchesAll | news_monitor_minimal.py:126-128 | An empty keyword or name makes every article relevant. |
| MinimalNewsMonitor.SearchNewsApiIfAvailable | news_monitor_minimal.py:69-72 | Without an API key, nothing is returned. |
| MinimalNewsMonitor.SearchGoogleNewsRssBound | news_monitor_minimal.py:32-67 | At most two keywords of MAX_ARTICLES_PER_CHECK entries each. |
| MinimalNewsMonitor.SearchGoogleNewsRssFirstTwo | news_monitor_minimal.py:36 | Only the feeds of the first two keywords are read. |
| MinimalNewsMonitor.SearchNewsApiFirstKeyword | news_monitor_minimal.py:78 | Only the NewsAPI answer for the first keyword is read. |
| MinimalNewsMonitor.NullTextEndsSearch | news_monitor_minimal.py:94-110 | An article whose title or description is JSON null raises at `.lower()`. The `except` around the whole search ends it, so no mention comes from that article or the ones after it. |
| MinimalNewsMonitor.NullUrlNeverStored | news_monitor_minimal.py:94-107 | A relevant article whose url is JSON null yields no mention, and the scan goes on with the next article. In the source, add_mention refuses such a mention because the url column is NOT NULL (database.py:30, 143-145). |
| MinimalNewsMonitor.MonitorAllCompanies | news_monitor_minimal.py:132-162 | Returns exactly the stored candidates, in company order, each tagged with its id. The store is as if they had been added one by one. |
| FreeLinkedInMonitor.KeywordMentionedAgree | linkedin_monitor_free.py:174-177 | The keyword loop is the minimal news monitor's. |
| FreeLinkedInMonitor.SameRuleAsMinimal | linkedin_monitor_free.py:164-179 | Relevance is the minimal news monitor's substring rule, applied to the snippet. |
| FreeLinkedInMonitor.SearchLinkedInGoogleSound | linkedin_monitor_free.py:37-109 | Every result names the company, has a url containing 'linkedin.com', and is relevant. It comes from a block of the first five for one of the first two keywords. Its title is that block's h3 text and its url the block's href. Its source is "LinkedIn - " plus the block's cite text, or 'LinkedIn' when there is none. |
| FreeLinkedInMonitor.SearchLinkedInGoogleOrigin | linkedin_monitor_free.py:37-109 | Every result comes from a block of the first five for one of the first two keywords. It carries that block's h3 title and href, and its source is "LinkedIn - " plus the cite text, or 'LinkedIn' when there is none. |
| FreeLinkedInMonitor.SearchLinkedInGoogleBound | linkedin_monitor_free.py:44-63 | At most five results for each of at most two keywords: ten in all. |
| FreeLinkedInMonitor.Slugs | linkedin_monitor_free.py:119-123 | Three spellings, in the order they are tried. The first is the lower-cased name with '-' for each space. The second is the lower-cased name with the spaces removed, keeping the other characters in order and number. The third is the lower-cased name. |
| FreeLinkedInMonitor.SlugsShape | linkedin_monitor_free.py:119-123 | The first two spellings contain no space, and all three are lower-case. |
| FreeLinkedInMonitor.TryPagesBound | linkedin_monitor_free.py:125-160 | At most three mentions per slug tried, and at most three in all when no entry raises. |
| FreeLinkedInMonitor.SearchCompanyPagesBound | linkedin_monitor_free.py:111-162 | At most nine mentions, and at most three from well-formed feeds. |
| FreeLinkedInMonitor.FirstFeedWins | linkedin_monitor_free.py:137-154 | The first slug whose feed has well-formed entries decides the result, and later slugs are not tried. |
| FreeLinkedInMonitor.MonitorAllCompanies | linkedin_monitor_free.py:181-214 | Returns exactly the stored candidates, in company order, each tagged with its id. The store is as if they had been added one by one. |
| FreeLinkedInMonitor.LinkedInRows | linkedin_monitor_free.py:218-221 | Keeps exactly the rows whose lower-cased source contains 'linkedin', each as often as in the input. |
| FreeLinkedInMonitor.LinkedInRowsAppend | linkedin_monitor_free.py:218-221 | The comprehension keeps the rows' order: filtering a concatenation concatenates the filtered parts. |
| FreeLinkedInMonitor.GetLinkedInInsights | linkedin_monitor_free.py:216-241 | The total is the number of recent LinkedIn rows. The company and source counts are their grouped counts, and each sums to the total. |
| LinkedInMonitor.SearchLinkedInApi | linkedin_monitor.py:38-73 | Whatever the token and the answer, the placeholder returns no mention. |
| LinkedInMonitor.SearchThirdPartyApis | linkedin_monitor.py:166-199 | The placeholder always returns no mention. |
| LinkedInMonitor.SearchLinkedInGoogleShape | linkedin_monitor.py:75-126 | At most 3 keywords × 5 results = 15 mentions. Each names the company, has a url containing 'linkedin.com' and the source 'LinkedIn (via Google)'. |
| LinkedInMonitor.KeepsIrrelevantResults | linkedin_monitor.py:99-118 | No relevance check: every titled LinkedIn block is kept, whatever its text. |
| LinkedInMonitor.RssSlug | linkedin_monitor.py:137 | The slug is the name lower-cased with '-' for each space, which is `'-'.join` of the lower-cased name split at spaces. It has no space and the name's length. |
| LinkedInMonitor.SearchLinkedInRssFeeds | linkedin_monitor.py:128-164 | At most ten mentions. |
| LinkedInMonitor.RssKeepsWellFormedEntries | linkedin_monitor.py:143-159 | Without a malformed entry, the first ten entries all become mentions, unfiltered and in feed order. The i-th mention has the i-th entry's title and link, and the source 'LinkedIn RSS'. |
| LinkedInMonitor.MonitorAllCompanies | linkedin_monitor.py:201-233 | Returns exactly the stored candidates, each tagged with its id. The store is as if they had been added one by one. |
| LinkedInMonitor.LinkedInRows | linkedin_monitor.py:237-240 | Keeps exactly the rows whose lower-cased source contains 'linkedin', each as often as in the input. |
| LinkedInMonitor.LinkedInRowsAppend | linkedin_monitor.py:237-240 | The comprehension keeps the rows' order: filtering a concatenation concatenates the filtered parts. |
| LinkedInMonitor.GetLinkedInInsights | linkedin_monitor.py:235-255 | The total is the number of recent LinkedIn rows, the company counts are their grouped counts and sum to it, and average_sentiment stays empty. |
| Pipeline.InsertAllShape | news_monitor.py:262-267 | A run of add_mention calls only appends rows, one per candidate it returns. The id counter advances by the same number. |
| Pipeline.InsertAllValid | news_monitor.py:262-267 | The store invariant holds after any run of inserts. |
| Pipeline.InsertAllTagAt | news_monitor.py:262-267 | The k-th returned candidate is one of the inputs, tagged with id nextId + k. |
| Pipeline.StoredRows | database.py:121-142 | The rows the INSERTs write for the returned candidates, one per candidate, with their ids. |
| Pipeline.InsertAllRows | news_monitor.py:262-267 | The rows appended are exactly the stored rows of the returned candidates, in order. |
| Pipeline.InsertAllBlocks | news_monitor.py:262-267 | After a run, every candidate is blocked, stored or not. |
| Pipeline.InsertAllBlocked | database.py:117-119 | Candidates that are all blocked store nothing and yield nothing. |
| Pipeline.RerunStoresNothing | news_monitor.py:245-273 | Running the same candidates again against the resulting store stores nothing and returns nothing. |
| Pipeline.InsertAllConcat | news_monitor.py:251-273 | Storing two batches one after the other is storing their concatenation. |
| Pipeline.StoreNew | news_monitor.py:262-267 | The inner loop leaves the store as `InsertAll` does and returns its tagged candidates. The other tables are untouched. |
| Pipeline.StoreAllCompanies | news_monitor.py:251-273 | The company loop is `InsertAll` over all batches concatenated in company order. |
| Ordered.IndexOf | alerts.py:124 | The position of a key, or −1 iff the key is absent. |
| Ordered.WhereCount | linkedin_monitor.py:237-240 | A list comprehension with a condition keeps each item that satisfies it as often as it occurs, and no other item. |
| Ordered.WhereAppend | linkedin_monitor.py:237-240 | A list comprehension with a condition keeps the items' order: filtering a concatenation concatenates the filtered parts. |
| Ordered.FirstAppearancesMembers | alerts.py:121-126 | The first appearances are exactly the keys that occur, each once. |
| Ordered.CountByTotal | alerts.py:363-381 | The counts of the counting loop sum to the number of items. |
| Ordered.CountByIsSizes | alerts.py:363-381 | Counting is grouping followed by taking sizes. |
| Ordered.GroupByFaithful | alerts.py:121-126 | Groups appear in first-appearance order of their keys, and each group holds exactly its items in input order. |
| Ordered.GroupByKeys | alerts.py:121-126 | The group keys are distinct and are exactly the keys of the items. |
| Ordered.GroupBySizes | alerts.py:121-126 | The group sizes sum to the number of items. |
| Ordered.CountByFaithful | news_monitor.py:284-299 | Counts appear in first-appearance order, each key counting its items, and they sum to the number of items. |
| Ordered.GroupInOrder | alerts.py:121-126 | The imperative grouping loop returns the ordered grouping, with first-appearance keys, input-order groups and sizes summing to the input length. |
| Ordered.Tally | alerts.py:371-381 | The imperative counting loop returns each key's number of items, in first-appearance order, summing to the input length. |
| Alerting.Emoji | alerts.py:43-50 | Strictly above the threshold is positive, strictly below its negation is negative, and the closed band between is neutral. |
| Alerting.Format | alerts.py:27-41 | Company, title, url and source are copied. Content within the limit is kept; longer content becomes its first `limit` characters and '...'. A missing score is 0, and the emoji is the score's. |
| Alerting.SectionCountAppend | alerts.py:240-281 | Mention sections add up over concatenated block lists. |
| Alerting.CompanyBlocksCapped | alerts.py:240-281 | A company with n mentions shows min(n, 3) mention sections, and has the "... and n−3 more" block iff n > 3. |
| Alerting.GroupBlocksCount | alerts.py:240-281 | All companies' blocks number the sum of the per-company budgets and show the sum of min(n, 3) mentions. |
| Alerting.ShownAtMostTotal | alerts.py:250-251 | At most every mention is shown, and all are shown iff no company has more than three. |
| Alerting.AppendCompanyBlocks | alerts.py:240-281 | The nested append loops add exactly every company's blocks, in group order. |
| Alerting.AppendCompany | alerts.py:242-281 | The per-company loop body appends the header, at most three sections, the "more" block when needed, and the divider. |
| Alerting.Ids | alerts.py:333-334 | The ids of the mentions that get rows, at most one per mention. |
| Alerting.IdsMembers | alerts.py:333-334 | Exactly the non-zero ids present are recorded, and all mentions are when all have one. |
| Alerting.RecordsLength | alerts_minimal.py:159-163 | Each recorded id gets exactly one row per (type, status) pair. |
| Alerting.RecordsShape | alerts_minimal.py:159-163 | Each row names a recorded id and one of the pairs, has no sent_at and no error, and the ids run consecutively. |
| Alerting.RecordsSingle | alerts.py:333-339 | With one pair, the k-th row is that pair for the k-th id. |
| Alerting.RecordsOneKind | alerts.py:333-339 | With one pair, every row carries that pair and a recorded id. |
| Alerting.RecordMention | alerts_minimal.py:161-163 | The add_alert_record calls for one mention append exactly its rows, and nothing else changes. |
| Alerting.RecordIfStored | alerts.py:333-339 | A mention without an id appends nothing; one with an id appends its rows. |
| Alerting.RecordAlerts | alerts.py:333-339 | The recording loop appends exactly `Records` of the ids, and the counter advances by ids × pairs. |
| Alerting.SummarizeRecent | alerts.py:359-381 | total_mentions is the count of the last 24 hours' rows, and the company and source counts are their grouped counts, each summing to it. |
| AlertSystem.FormatMention | alerts.py:27-41 | Content of at most 200 characters is kept, longer content becomes its first 200 and '...' (at most 203), and the emoji is the score's. |
| AlertSystem.SentimentEmoji | alerts.py:43-50 | > 0.3 is positive, < −0.3 is negative, and the rest (±0.3 included) is neutral. |
| AlertSystem.EmojiMatchesClass | alerts.py:196-203 | The emoji and the CSS class agree on every score, and ±0.3 are neutral. |
| AlertSystem.UnsetRecipientsPassGuard | config.py:53 | As written, the unset variable yields [''], which is non-empty, so the email guard passes. No split is ever empty. |
| AlertSystem.NonEmpty | config.py:53 | Keeps exactly the non-empty parts, each as often as it occurs. |
| AlertSystem.NonEmptyAppend | config.py:53 | Dropping the empty parts keeps the order of the others: it distributes over concatenation. |
| AlertSystem.Recipients | config.py:53 | The corrected recipients are exactly the non-empty comma-separated parts, each as often as it is listed, and none contains a comma. |
| AlertSystem.RecipientsEmptyIff | alerts.py:54 | The corrected list is empty iff the variable names no address. |
| AlertSystem.SendEmailAlert | alerts.py:52-92 | False without username, password or recipients. Otherwise the SMTP outcome. |
| AlertSystem.SlackBlocksShape | alerts.py:205-298 | The payload has 2 blocks plus each company's budget. It shows min(n, 3) mentions per company, all mentions iff no company has more than three. |
| AlertSystem.SendSlackAlert | alerts.py:205-298 | False without a webhook. Otherwise whether the POST of the grouped payload succeeds. |
| AlertSystem.RecordEmail | alerts.py:329-339 | Appends one email row per mention with an id when email is configured, status 'sent' iff the send succeeded. |
| AlertSystem.RecordSlack | alerts.py:342-352 | Appends one slack row per mention with an id when the webhook is set, status 'sent' iff the send succeeded. |
| AlertSystem.RecordResults | alerts.py:328-352 | The email rows, then the slack rows. |
| AlertSystem.SendAlerts | alerts.py:320-355 | The results dict and the alert rows follow from the configuration and from what each sender returned. Nothing for an empty list. |
| AlertSystem.AlertLogSplit | alerts.py:328-352 | The log is the email rows followed by the slack rows, whose ids continue. |
| AlertSystem.AlertLogCount | alerts.py:320-352 | No results and no rows for no mentions. Otherwise one row per mention with an id for each configured channel. |
| AlertSystem.EmailRowsLength | alerts.py:329-339 | One email row per id exactly when there are mentions and email is configured. |
| AlertSystem.SlackRowsLength | alerts.py:342-352 | One slack row per id exactly when there are mentions and a webhook is set. |
| AlertSystem.AlertLogStatus | alerts.py:328-352 | Every row names a recorded mention and a configured channel, and says 'sent' iff that channel's send returned True. |
| AlertSystem.MissingPasswordRecordsFailures | alerts.py:54-56 | A username and recipients without a password still try email: its result is False and every email row says 'failed'. |
| AlertSystem.UnsetRecipientsSkipEmail | alerts.py:329 | With the corrected recipients and the variable unset, no email result and no email row. |
| AlertSystem.CreateDailySummary | alerts.py:357-398 | total_mentions is the number of rows of the last 24 hours. The company and source counts are their grouped counts, each summing to it. |
| MinimalAlertSystem.FormatMention | alerts_minimal.py:20-34 | Content of at most 150 characters is kept, and longer content becomes its first 150 and '...'. |
| MinimalAlertSystem.SentimentEmoji | alerts_minimal.py:36-43 | > 0.3 is positive, < −0.3 is negative, and the rest is neutral. |
| MinimalAlertSystem.SendConsoleAlert | alerts_minimal.py:45-83 | Always True. |
| MinimalAlertSystem.SendDemoEmailAlert | alerts_minimal.py:85-110 | Always True. |
| MinimalAlertSystem.SendDemoSlackAlert | alerts_minimal.py:112-139 | Always True. |
| MinimalAlertSystem.DemoSlackDigest | alerts_minimal.py:121-137 | One printed entry per company. |
| MinimalAlertSystem.DemoSlackCapped | alerts_minimal.py:121-137 | Companies appear in first-appearance order, each with its full count. At most two mentions are shown, the first in input order, and all iff it has at most two. The counts sum to the number of mentions. |
| MinimalAlertSystem.SendAlerts | alerts_minimal.py:141-166 | {} and no rows for no mentions. Otherwise console, email_demo and slack_demo, all True, and three 'sent' rows per mention with an id. |
| MinimalAlertSystem.DemoRecordsRule | alerts_minimal.py:159-163 | Exactly three rows per id, all 'sent', of the three demo types, each naming a mention with that id, with consecutive ids. |
| MinimalAlertSystem.CreateDailySummary | alerts_minimal.py:168-209 | total_mentions is the number of rows of the last 24 hours. The company and source counts are their grouped counts, each summing to it. |
| SlackAlertSystem.FormatMention | alerts_slack.py:22-35 | Content of at most 200 characters is kept, and longer content becomes its first 200 and '...'. |
| SlackAlertSystem.SentimentEmoji | alerts_slack.py:37-44 | > 0.1 is positive, < −0.1 is negative, and the rest is neutral. |
| SlackAlertSystem.DisplayTitle | alerts_slack.py:123-126 | A title of more than 80 characters becomes its first 77 and '...', exactly 80. A shorter one is kept. |
| SlackAlertSystem.TitlesFit | alerts_slack.py:109-134 | Every mention section of the company blocks shows a title of at most 80 characters. |
| SlackAlertSystem.SlackTitlesFit | alerts_slack.py:86-159 | No mention section of the payload shows a title longer than 80 characters. |
| SlackAlertSystem.SlackBlocksShape | alerts_slack.py:86-159 | 3 + Σ(1 + min(n,3) + [n>3] + 1) + 1 blocks. The summary reports every mention and every company, and min(n, 3) sections show per company. |
| SlackAlertSystem.SendSlackAlert | alerts_slack.py:46-84 | False without posting when the webhook or the mention list is empty. Otherwise whether Slack accepted the grouped blocks. |
| SlackAlertSystem.SendTestAlert | alerts_slack.py:161-175 | Posts the blocks of the one test mention, and False without a webhook. |
| SlackAlertSystem.TestAlertShape | alerts_slack.py:161-175 | The test message has seven blocks. Its one section shows the positive emoji and the whole title. |
| SlackAlertSystem.CountWhere | alerts_slack.py:219-220 | `sum(1 for m in ms if p(m))` is the length of the comprehension that keeps the mentions satisfying p, so at most their number. |
| SlackAlertSystem.Partition | alerts_slack.py:219-221 | Positive, neutral and negative counts partition the mentions. |
| SlackAlertSystem.LineCounts | alerts_slack.py:219-221 | The neutral count computed as the rest is never negative, counts exactly the scores in [−0.1, 0.1], and the three counts add up. |
| SlackAlertSystem.Lines | alerts_slack.py:218-229 | One line per company. |
| SlackAlertSystem.DailyMessageCounts | alerts_slack.py:188-229 | One line per company in first-appearance order, each covering its company's mentions and partitioned by sentiment. The lines add up to all mentions. |
| SlackAlertSystem.SendDailySummary | alerts_slack.py:177-252 | False when the date query raises (it always does against this store). True without posting for no mentions. Otherwise whether the summary post succeeds. |

## Left out

- Network I/O is not modelled: NewsAPI, Google News RSS, Google search HTML, LinkedIn feeds, SMTP and the Slack/webhook POSTs. Fetched answers and send outcomes are function or boolean parameters.
- TextBlob sentiment is an arbitrary `polarity` function. The exception that `analyze_sentiment` turns into 0.0 is part of that function.
- Sentiment averages (float division) in create_daily_summary and get_trending_mentions are not modelled.
- `time.sleep` throttling is not modelled.
- Clocks and dates are explicit `now` parameters in seconds and opaque date strings. The strftime and fromisoformat normalisation of published dates is a parameter.
- MD5 is an arbitrary function fixed when the store is created.
- SQL text, indexes, logging and the connection handling are not modelled. The foreign key from alerts to mentions is not enforced, as SQLite's default leaves it.
- `.lower()`, SQLite `LOWER` and the regex class `\w` are approximated on ASCII; Unicode case mapping is not modelled.
- MentionStore.SortNewestFirst: rows with equal created_at come out in the order this insertion sort gives; SQLite leaves that order open.
- MentionStore.SortByCountDesc: equal counts keep first-appearance order; SQLite leaves that order open.
- The scheduler, the Flask app, the command-line entry points, the test script and the database-clearing script are not part of this model.
- The HTML and text email bodies, console printing and the Slack message wording are not modelled. Blocks keep only their data: counts, titles, formatted mentions.
- `send_webhook_alert` in alerts.py is not modelled. It only posts the formatted mentions.
- `search_bing_news` in news_monitor.py is not modelled. It always returns an empty list and is never called.
- `suggest_monitoring_improvements` in linkedin_monitor.py is not modelled. It returns fixed advice strings.
- Configuration files are not modelled beyond the recipients split of config.py and the MAX_ARTICLES_PER_CHECK defaults.
- Alert mentions whose company, title, url or source is None are not modelled. These keys are plain strings.
- A relevant NewsAPI article whose url is JSON null is dropped by the model where the article is read. In the source, the search functions still return that mention. add_mention then refuses it, because the url column is NOT NULL. What monitor_all_companies stores and returns is the same in both.
- The monitors interleave fetching and storing company by company; the model fetches every batch first. The result is the same because fetches are parameters that do not see the store.
- AlertSystem.SendAlerts: both senders are evaluated before any row is recorded, whereas the source records the email rows between the two sends. The outcome is the same, because the Slack send does not read the alerts table.
- FreeLinkedInMonitor.TryPagesBound: an exception while fetching a slug's page is a `None` answer; the `continue` to the next slug is modelled, the exception's cause is not.

## Findings

| source | as written | input that shows it | evidently intended | confidence | as-written member | corrected member |
|---|---|---|---|---|---|---|
| config.py:53 | `os.getenv('ALERT_EMAIL_RECIPIENTS', '').split(',')` gives `['']` when the variable is unset, a non-empty list, so the recipient guards at alerts.py:54 and alerts.py:329 never fire | ALERT_EMAIL_RECIPIENTS unset, EMAIL_USERNAME and EMAIL_PASSWORD set | no email is attempted and no email row is recorded when no address is configured | not executed | AlertSystem.UnsetRecipientsPassGuard | AlertSystem.UnsetRecipientsSkipEmail |
