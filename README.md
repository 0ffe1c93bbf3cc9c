# Financial RAG system — Dafny model

This project models the core of a question-answering system over the 10-K filings of
Google, Microsoft and NVIDIA. It covers five parts:

- **`SECDownloader`** picks filings from the EDGAR submissions feed. It filters them by
  year and fetches each one into a company directory.
- **`DocumentProcessor`** turns a filing into overlapping word chunks. Each chunk carries
  its section, an estimated page and an id.
- **`FAISSVectorStore`** stores chunks next to an inner-product index. It filters and cuts
  search results and reports statistics.
- **`FinancialAgent`** runs the graph classify → (decompose) → search → synthesize. The
  synthesis step falls back in several stages when the language model's reply is not
  clean JSON.
- **The assignment validator** scores a `/query` response against named requirements and
  turns the query outcomes into a rubric verdict.

Everything the system gets from outside is an input of the model:

- the language model;
- `json.loads`;
- the two regular expressions of the JSON fallback;
- the embedder and FAISS ranking;
- the HTTP requests and the file system;
- the PDF and HTML readers;
- the sentence splitter and the section finder;
- MD5.

Most of these are function values carried in a datatype: `Oracles`, `Edgar` or
`Readers`. Two are plain values instead. The embedding handed to `AddDocuments` is the
`embedded` and `widthError` parameters. The index files read back at load are an
`IndexFiles` value. FAISS answers each query with a `Ranking` value. The model then
states what the system does with whatever those inputs return.

Modules:

- `Wrappers`, `Json`, `PyDict` and `PyStr` model the Python values the system works on.
  - `Json` holds decoded JSON values and the error text of `len()` and `.get` on them.
  - A `PyDict` is an association list, so a dict keeps its insertion order.
  - `PyStr` provides `strip`, `split`, `lower`, `replace`, `find`, `zfill`, slicing and
    `sorted`.
- `Schemas` holds the pydantic records.
- `SecDownloader`, `DocumentProcessor`, `VectorStore`, `FinancialAgent` and
  `AssignmentValidation` follow the source files of the same names.

The classes follow the source's objects:

- `FAISSVectorStore` is a class whose `index`, `chunksMetadata` and `dimension` fields the
  methods update.
- `AgentState` is a class whose fields each graph node rewrites. Its `View()` is the
  value the node functions describe.
- A downloader `Filing` is a class because `filter_filings_by_year` rewrites its
  `targetYear` in place.

## Model

| member | source | states |
|---|---|---|
| PyStr.SortedList | core/vector_store.py:223-225 | `sorted(list(s))` of a set of strings: strictly ascending, the same elements, no duplicates |
| PyStr.StripIdempotent | core/financial_agent.py:244-250 | stripping twice is stripping once, so the re-strips after fence removal cannot change a stripped text |
| PyStr.FenceFree | core/financial_agent.py:150 | after `replace("```", "")` no triple backtick remains |
| PyStr.RemoveChar | core/sec_downloader.py:112 | `replace("-", "")` for one character: no such character remains, every other character keeps its count (`multiset`) and its order (the result is a subsequence of the input), and the result is no longer |
| PyStr.NatToStringInjective | core/document_processor.py:244-246 | distinct chunk indices print as distinct decimal strings |
| PyDict.CollectKeys | core/sec_downloader.py:182-193 | a dict filled by `results[k] = f(k)` over a list has exactly that list's keys, each once |
| PyDict.CollectGet | core/sec_downloader.py:182-193 | in that dict every key in the list maps to `f(key)`, so later duplicates overwrite earlier ones with the same value |
| PyDict.PutLookup | core/vector_store.py:201-204 | after `results[q] = f(q)`, a dict whose keys are the earlier queries, each mapped to its own result, has the earlier queries and `q` as keys, each still mapped to its own result |
| VectorStore.ChunkToSource | core/vector_store.py:230-243 | a source copies company, year, page, section, id and score; the excerpt is the whole content up to 200 characters, and otherwise the first 200 characters followed by "..." |
| VectorStore.ExcerptBounded | core/vector_store.py:233 | an excerpt is at most 203 characters and starts with a prefix of the content |
| VectorStore.FAISSVectorStore.constructor | core/vector_store.py:26-39 | a new store has the given model name; it holds the index and chunks on disk when both files exist and both read cleanly, and is empty otherwise (a good index file with bad metadata still leaves its width as the dimension) |
| VectorStore.FAISSVectorStore.LoadIndex | core/vector_store.py:90-128 | a missing file leaves the state unchanged; a read error resets index and chunks; a clean read installs both, and `dimension` becomes the index width once the index file has been read |
| VectorStore.FAISSVectorStore.AddDocuments | core/vector_store.py:130-162 | no chunks changes nothing; an embedding error, or vectors whose width differs from an existing index's `d` (refused by `index.add`), is raised before anything changes; otherwise the chunks are appended, `ntotal` grows by their number, and a missing index is created with the embedding width |
| VectorStore.FAISSVectorStore.Search | core/vector_store.py:164-197 | the result equals the search function on the store's state: an empty store gives `[]` for any k, an embedder error propagates, a count k ≤ 0 on a non-empty index raises FAISS's refusal, and otherwise the first `min(3k, ntotal)` rows are bounds-checked, filtered and cut to k |
| VectorStore.FAISSVectorStore.SearchMultipleQueries | core/vector_store.py:199-204 | one search per query into a dict; the first error stops the loop |
| VectorStore.FAISSVectorStore.GetStats | core/vector_store.py:206-228 | with no index the stats are zero and empty; otherwise `total_chunks` is `ntotal`, and companies, years and truthy sections are sorted, duplicate-free and exactly those of the stored chunks |
| VectorStore.SearchEmptyIndex | core/vector_store.py:169-171 | no index, or an empty one, answers every query with `[]` |
| VectorStore.SearchNonPositive | core/vector_store.py:169-178 | for k ≤ 0 the search succeeds exactly on an absent or empty index, with `[]`; on any other index it raises, with FAISS's refusal when the embedding succeeded |
| VectorStore.SearchResult | core/vector_store.py:164-197 | `[]` for an absent or empty index; an exception exactly when the index is non-empty and either the embedding or FAISS raises or k ≤ 0; a non-empty result has at most k hits; on a non-empty index with a ranking and k > 0, the result is the first k accepted rows among the first `min(3k, ntotal)` candidates, in FAISS's order |
| VectorStore.SearchSound | core/vector_store.py:178-197 | a non-empty result has at most k hits, and at most `ntotal`; every hit is a stored chunk that matches every truthy filter |
| VectorStore.SearchComplete | core/vector_store.py:178-197 | a search that returns fewer than k hits returns every fetched row that names a stored chunk passing the filters |
| VectorStore.SearchDescending | core/vector_store.py:178-197 | when FAISS ranks rows best first, the hits come out best first |
| VectorStore.AcceptedSound | core/vector_store.py:182-194 | filtering keeps at most the candidate rows, and every kept hit carries a candidate's score |
| VectorStore.AcceptedSkipsBadRows | core/vector_store.py:183 | rows with `idx` of -1 or beyond the metadata yield nothing |
| VectorStore.AcceptedAllRows | core/vector_store.py:182-194 | with no filters, every in-range row yields a hit |
| VectorStore.Accepted | core/vector_store.py:181-194 | at most one hit per candidate row, each a stored chunk that passes every truthy filter |
| VectorStore.AcceptedComplete | core/vector_store.py:181-194 | every candidate row that names a stored chunk passing every truthy filter yields its hit, so with `AcceptedSound` a hit comes exactly from such a row |
| VectorStore.AcceptedInOrder | core/vector_store.py:181-194 | filtering keeps row order: the hits are a subsequence of the hits of all in-range rows |
| VectorStore.SearchAllStopsAtError | core/vector_store.py:199-204 | the first failing query makes the whole multi-search fail with that query's error |
| VectorStore.SearchAll | core/vector_store.py:199-204 | the multi-search raises exactly when the search of some query raises |
| VectorStore.SearchAllValues | core/vector_store.py:199-204 | when nothing raised, the dict's keys are exactly the queries, and each maps to that query's own search results |
| DocumentProcessor.HtmlPageCount | core/document_processor.py:75 | `max(1, len // 3000)`: at least 1, exactly 1 below 6000 characters, otherwise the number of whole 3000-character pages |
| DocumentProcessor.HtmlExtraction | core/document_processor.py:53-81 | a failed HTML read gives `("", 0)`; a clean one gives the cleaned text with at least one page |
| DocumentProcessor.InsertByStart | core/document_processor.py:143 | inserting into a list ordered by start position keeps it ordered and adds exactly that entry |
| DocumentProcessor.SortByStart | core/document_processor.py:143 | `sorted(sections.items(), key=start)` is ordered by start and is a permutation of the items |
| DocumentProcessor.GetSectionForPosition | core/document_processor.py:137-152 | the loop returns the section function's value |
| DocumentProcessor.SectionAt | core/document_processor.py:137-152 | no sections gives `None`; a reported section is one of the entries, with a start at or before the position |
| DocumentProcessor.SectionAtGreatest | core/document_processor.py:137-152 | no section exactly when every section starts after the position; otherwise a section that starts at or before the position, with no later such start |
| DocumentProcessor.SortedKeepsEntries | core/document_processor.py:143 | sorting keeps exactly the section entries |
| DocumentProcessor.OverlapWords | core/document_processor.py:178 | `words[-overlap:]` is a suffix; it is all the words for overlap 0, and for a positive overlap the last `min(overlap, n)` words |
| DocumentProcessor.SemanticChunking | core/document_processor.py:154-191 | the loop returns the chunking function's value |
| DocumentProcessor.Fold | core/document_processor.py:164-185 | after the loop over n sentences at most n chunks have been closed |
| DocumentProcessor.StepInv | core/document_processor.py:164-184 | one iteration keeps the loop invariant: the closed chunks and the open one, each with its overlap dropped, hold exactly the words of the sentences so far, and each begins with the overlap words of the one before |
| DocumentProcessor.FoldKeepsInv | core/document_processor.py:164-185 | the loop invariant holds after any prefix of the sentences |
| DocumentProcessor.ChunkingConservesWords | core/document_processor.py:154-191 | concatenating the chunks' words, minus each chunk's overlap with its predecessor, gives back exactly the words of all sentences |
| DocumentProcessor.ChunkingOverlaps | core/document_processor.py:172-179 | each chunk begins with the overlap words of the chunk before it |
| DocumentProcessor.ChunkingEmptyIffBlank | core/document_processor.py:164-189 | there are no chunks exactly when every sentence is blank |
| DocumentProcessor.ChunkingWithinBudget | core/document_processor.py:170-189 | a text within the chunk size yields at most one chunk |
| DocumentProcessor.SingleSentenceWhole | core/document_processor.py:164-189 | one non-blank sentence yields one chunk, holding that sentence stripped |
| DocumentProcessor.ChunkPositionsOrdered | core/document_processor.py:162-189 | when the sentences occur in order in the text, chunk positions lie within the text and never decrease |
| DocumentProcessor.ExtractMetadataFromFilename | core/document_processor.py:193-211 | the filing type is "10-K"; with two or more `_`-parts, company and year are the first two; with no `_`, the company is the parent directory and the year is "unknown" |
| DocumentProcessor.PathName | core/document_processor.py:195 | `Path(p).name` holds no '/' and is not "."; it is empty exactly when the path has no components |
| DocumentProcessor.ParentName | core/document_processor.py:204 | `Path(p).parent.name` holds no '/' and is not "." |
| DocumentProcessor.PathNameOfJoin | core/document_processor.py:195 | the name of `dir/base` is `base` |
| DocumentProcessor.EstimatedPage | core/document_processor.py:249 | the estimated page never exceeds the page count |
| DocumentProcessor.EstimatedPageInRange | core/document_processor.py:249 | for a position inside the text, the estimated page lies between 1 and the page count |
| DocumentProcessor.ChunkKey | core/document_processor.py:244-246 | the hashed key starts with "company_year_i_" and adds at most 50 characters of the content |
| DocumentProcessor.ChunkKeyFields | core/document_processor.py:244-246 | the hashed key splits back into company, year and chunk index |
| DocumentProcessor.ChunkKeysDistinct | core/document_processor.py:244-246 | chunks of one document with different indices get different hash inputs |
| DocumentProcessor.MakeChunk | core/document_processor.py:242-260 | a chunk copies the raw chunk's text and section and the document's metadata; its token count is its word count; its id is the MD5 of its key; a position inside the text gives a page in `1..pages` |
| DocumentProcessor.DocumentChunks | core/document_processor.py:213-263 | an empty text gives no chunks; every chunk has filing type 10-K and counts its own words |
| DocumentProcessor.ProcessDocument | core/document_processor.py:213-263 | the loop returns the document's chunk list as specified |
| DocumentProcessor.DocumentChunksFacts | core/document_processor.py:213-263 | empty text gives no chunks; each chunk's token count is its word count, its type is 10-K, and its total pages is the extracted page count; chunk i's id is the MD5 of `company_year_i_content[:50]`, and its company and year are those read from the file name; when sentences occur in order, every page number lies in `1..pages` |
| DocumentProcessor.ProcessAllDocuments | core/document_processor.py:265-277 | the nested loop returns every document's chunks in dict order |
| DocumentProcessor.ProcessPaths | core/document_processor.py:272-274 | the chunks of a path list are the concatenated chunks of each path |
| DocumentProcessor.PathsChunks | core/document_processor.py:272-274 | every chunk of a path list has filing type 10-K and counts its own words |
| DocumentProcessor.AllChunks | core/document_processor.py:265-277 | every chunk of all documents has filing type 10-K and counts its own words |
| DocumentProcessor.AllChunksFrom | core/document_processor.py:265-277 | every chunk produced comes from one of the listed files |
| SecDownloader.SubmissionsUrl | core/sec_downloader.py:40-41 | the URL has the submissions prefix and the `.json` suffix, and between them holds `ZFill(cik, 10)`, the CIK zero-padded to at least ten characters |
| SecDownloader.SelectionAt | core/sec_downloader.py:65-76 | a filing dict takes missing dates and documents as "", a missing report date as the filing date, and a missing description as "<form> filing"; its year comes from the filing date, or else from the report date |
| SecDownloader.SelectUpTo | core/sec_downloader.py:65-84 | the first n rows give at most n filings, each with a year in 2022–2024 |
| SecDownloader.SelectUpToPicked | core/sec_downloader.py:65-87 | a filing is selected exactly when it is built from a row with the right form, an accession number and a year in 2022–2024 |
| SecDownloader.PickedIndicesExact | core/sec_downloader.py:65-76 | the picked indices are, in increasing order, exactly the rows below n with the right form, an accession number and a year in 2022–2024 |
| SecDownloader.SelectUpToInOrder | core/sec_downloader.py:65-84 | the j-th selected filing is the one built from the j-th picked row, so row order is kept |
| SecDownloader.SelectUpToForm | core/sec_downloader.py:65-66 | every selected filing comes from a row of the requested form |
| SecDownloader.CompanyFilings | core/sec_downloader.py:37-91 | a failed request gives `[]`; every returned filing has a target year in 2022–2024 |
| SecDownloader.GetCompanyFilings | core/sec_downloader.py:37-91 | the returned filings are fresh and carry exactly the selected entries; a failed request or a missing "filings.recent" gives `[]` |
| SecDownloader.RetargetFiling | core/sec_downloader.py:97-104 | a filing passes exactly when its filing year or report year is requested; a passing filing gets its report year as target year, any other keeps its old one |
| SecDownloader.FilterFilingsByYear | core/sec_downloader.py:93-106 | each kept filing's `targetYear` becomes its report year, and the others are untouched; the result is the kept filings, in order, cut to `len(years)` |
| SecDownloader.FilterBounded | core/sec_downloader.py:106 | at most as many filings as years, and no more than given, each kept by the year rule |
| SecDownloader.Kept | core/sec_downloader.py:96-104 | every kept filing is one of the input filings and passes the year test; no more than given |
| SecDownloader.KeptComplete | core/sec_downloader.py:96-104 | every input filing whose filing year or report year is in `years` is kept, so with `Kept` a filing is kept exactly when it passes the year test |
| SecDownloader.KeptInOrder | core/sec_downloader.py:96-104 | the kept filings are a subsequence of the input |
| SecDownloader.KeptCommutes | core/sec_downloader.py:93-106 | filtering the filing objects and then reading their fields gives the same values as filtering the field values |
| SecDownloader.FilingUrl | core/sec_downloader.py:112-115 | the URL is `EDGAR/cik/clean/filename`, where `clean` is the accession number with every dash removed: no dash is left, and the other characters keep their counts and their order |
| SecDownloader.DownloadFiling | core/sec_downloader.py:108-146 | on success the path is `dir/company/company_year_filename`; `None` exactly when the file is absent and the fetch fails |
| SecDownloader.LocalPathRoundTrip | core/sec_downloader.py:122-123 | the document processor reads company and year back from a downloaded path |
| SecDownloader.DownloadCompanyFilings | core/sec_downloader.py:148-178 | the method returns the specified outcome |
| SecDownloader.DownloadTargets | core/sec_downloader.py:166-178 | the download loop keeps the successful paths in filing order |
| SecDownloader.Downloads | core/sec_downloader.py:166-178 | at most one path per target filing |
| SecDownloader.DownloadsTruthy | core/sec_downloader.py:166-178 | the paths are the truthy `download_filing` results of the targets, in filing order |
| SecDownloader.TruthyMembers | core/sec_downloader.py:176-177 | a path is kept exactly when some result is that truthy path |
| SecDownloader.CompanyDownloads | core/sec_downloader.py:148-178 | the ValueError "Unknown company: X" is raised exactly for a ticker that is not in `COMPANY_CIKS` |
| SecDownloader.CompanyDownloadsFacts | core/sec_downloader.py:148-178 | an unknown ticker raises, and a known one does not; at most `len(years)` paths, each under the company's directory |
| SecDownloader.DownloadsFacts | core/sec_downloader.py:166-178 | at most one path per target filing, each a local path of the company; a path is returned exactly when some target's `download_filing` gave that truthy path; the paths are a subsequence of the targets' local paths, so filing order is kept |
| SecDownloader.DownloadAllFilings | core/sec_downloader.py:180-193 | the loop returns the per-company dict as specified |
| SecDownloader.AllDownloads | core/sec_downloader.py:180-193 | the dict's keys are exactly the requested companies |
| SecDownloader.AllDownloadsKeys | core/sec_downloader.py:180-193 | the dict has each requested company once, maps it to its downloads, and maps an unknown company to `[]` |
| FinancialAgent.StringSlot | models/schemas.py:24-30 | a JSON value is accepted as a string field exactly when it is a string |
| FinancialAgent.ListSlot | models/schemas.py:24-30 | a JSON value is accepted as a list-of-strings field exactly when it is an array of strings, element by element |
| FinancialAgent.AgentState.constructor | core/financial_agent.py:325-334 | the initial state holds the query and empty values everywhere else |
| FinancialAgent.RoutingFixed | core/financial_agent.py:42-66 | the walk of the edge table from the entry point: a simple query runs classify, search, synthesize; a complex one adds decompose before search |
| FinancialAgent.InvokeFollowsEdges | core/financial_agent.py:42-66 | for any node table that runs each node as its node function does, `Invoke` equals running the nodes of that walk in turn, with the route the classify node's label picks; an exception skips the rest |
| FinancialAgent.WalkToSearch | core/financial_agent.py:53-62 | running the walk up to the search node leaves the state that classification, and decomposition when the label routes there, leave |
| FinancialAgent.WalkPrefix | core/financial_agent.py:53-62 | for any node table, both routes reach the search node with the state their first nodes leave |
| FinancialAgent.SearchToEnd | core/financial_agent.py:62-66 | from the search node to END the walk searches, then synthesizes unless the search raised |
| FinancialAgent.Label | core/financial_agent.py:91-104 | the route is "simple" or "complex"; "simple" exactly when the reply, stripped and lower-cased, is "simple"; an error or any other word routes to complex |
| FinancialAgent.Classified | core/financial_agent.py:70-106 | `query_type` is the label of the model's reply, "simple" or "complex"; a failed call sets `error` to "Classification error: <message>" and a reply leaves it; nothing else changes |
| FinancialAgent.UnfenceFree | core/financial_agent.py:150 | removing the fences leaves no triple backtick |
| FinancialAgent.DecompositionUnfenced | core/financial_agent.py:146-150 | a fenced decomposition reply is parsed without any fence |
| FinancialAgent.Decompose | core/financial_agent.py:144-160 | success exactly when the model replied, the text parses, and the value has a length; then the parsed value becomes `sub_queries`; on any failure `sub_queries` is `[query]` |
| FinancialAgent.Decomposed | core/financial_agent.py:112-162 | `sub_queries` is what `Decompose` yields for the reply; a failure sets `error` to "Decomposition error: <text>" (with `sub_queries` then `[query]`), and a success leaves it; nothing else changes |
| FinancialAgent.Rows | core/financial_agent.py:183-193 | one row per hit, in order |
| FinancialAgent.Sources | core/financial_agent.py:184-194 | one source per hit, in order, built by `chunk_to_source` |
| FinancialAgent.AllSourcesCount | core/financial_agent.py:175-204 | the sources list has one entry per hit over all queries |
| FinancialAgent.AllSourcesAppend | core/financial_agent.py:177-194 | searching `qs + rs` collects the sources of `qs`, then those of `rs` |
| FinancialAgent.SearchedFacts | core/financial_agent.py:164-205 | a simple query searches `[query]`, and a complex one its sub-queries; `search_results` has each query once with its rows, `[]` when the search raised, and `sources` counts all hits |
| FinancialAgent.Searched | core/financial_agent.py:164-205 | raises exactly when `sub_queries` is an untyped list holding a list or dict (the TypeError of lines 196 and 200); otherwise only `sub_queries`, `search_results` and `sources` change, and `sub_queries` is kept or becomes the searched list |
| FinancialAgent.ResultLinesShape | core/financial_agent.py:216-217 | one "Result i: …" line per row, numbered from 1 |
| FinancialAgent.QueryBlockShape | core/financial_agent.py:214-218 | each query contributes a header, at most three result lines each with at most 500 content characters, and a blank line |
| FinancialAgent.ContextPartsBound | core/financial_agent.py:213-220 | the context has between 2 and 5 parts per searched query |
| FinancialAgent.CleanReplyUnfenced | core/financial_agent.py:244-259 | the cleaned reply never starts with a fence, so the split at 256-259 never runs |
| FinancialAgent.CleanReplyStripped | core/financial_agent.py:244-250 | the cleaned reply is stripped |
| FinancialAgent.FirstNonEmpty | core/financial_agent.py:299-302 | the entry found, searching from position `from` on, has results |
| FinancialAgent.FirstNonEmptyIsFirst | core/financial_agent.py:296-302 | an entry is found exactly when some query at position `from` or later has results, and it is the first such entry in dict order |
| FinancialAgent.SnippetFallback | core/financial_agent.py:295-306 | with no regex match and some results, the answer is "Based on available data: From search 'q': <200 characters>... " for the first query with results |
| FinancialAgent.NoResultsFallback | core/financial_agent.py:307-310 | with no regex match and no results, the answer and reasoning are the two fixed "no results" texts |
| FinancialAgent.RawTextPrefix | core/financial_agent.py:286-289 | the raw-text answer is a prefix of the reply, longer than 10 and at most 500 characters |
| FinancialAgent.RawTextFallback | core/financial_agent.py:278-293 | the raw-text branch is taken only when the full parse failed, a regex matched and the match did not parse as an object; its answer is a 10–500 character prefix of the reply |
| FinancialAgent.Fallback | core/financial_agent.py:268-310 | never the processing-error path nor the full-JSON path; every path but the partial-JSON one gives a string answer and reasoning; the snippet or no-results path is taken exactly when no regex matched |
| FinancialAgent.ParsedBranches | core/financial_agent.py:262-317 | the failure path is taken exactly when the reply parses to a non-object, whose `.get` raises; the snippet path exactly when nothing parses, nothing matches and there are results; every fallback answer is a string |
| FinancialAgent.Parsed | core/financial_agent.py:262-317 | a failure exactly on the processing-error path, the full-JSON path exactly when the text loads to an object; a failure answers "Unable to synthesize answer due to processing error" with a "Synthesis error: " message |
| FinancialAgent.OutcomeBranches | core/financial_agent.py:242-317 | a model error gives the processing-error answer with "Synthesis error: …" as reasoning; otherwise the cleaned reply decides |
| FinancialAgent.Outcome | core/financial_agent.py:242-317 | a failure exactly on the processing-error path, with the fixed failure answer and a "Synthesis error: " message; a model error always takes that path |
| FinancialAgent.SynthesisError | core/financial_agent.py:312-317 | an earlier error is kept; a synthesis failure sets `error` only when none was set |
| FinancialAgent.Synthesized | core/financial_agent.py:207-319 | only `final_answer`, `reasoning` and `error` change, and a non-empty earlier error is kept |
| FinancialAgent.Invoke | core/financial_agent.py:53-66 | a completed run keeps the query and leaves the label "simple" or "complex" |
| FinancialAgent.Respond | core/financial_agent.py:340-349 | the response echoes the query; it is the validation-error response exactly when a slot is untyped, or when the state already holds exactly that response |
| FinancialAgent.Answer | core/financial_agent.py:321-359 | the response echoes the query; an exception out of the graph gives "Error processing query: <message>" with the system-error reasoning, `[query]` and no sources |
| FinancialAgent.AnswerSubQueries | core/financial_agent.py:321-359 | the response echoes the query; a simple query reports `[query]`; any other list came from a successful decomposition |
| FinancialAgent.AnswerSources | core/financial_agent.py:338-359 | the response's sources are all hits of its sub-queries, in order, unless the response is the system-error response |
| FinancialAgent.UntypedSubQueries | core/financial_agent.py:152-204 | a parsed decomposition that is not a list of strings passes the length test; the answer is then "Error processing query: unhashable type: 'list'" (or 'dict') when the list holds a list or dict, raised by the dict store at lines 196 and 200, and the response-validation rejection otherwise |
| FinancialAgent.UntypedOnlyFromDecomposition | core/financial_agent.py:144-205 | an exception out of the graph, or an untyped `sub_queries` at its end, comes only from a complex question whose decomposition parsed to such a value |
| Json.FirstUnhashable | core/financial_agent.py:196 | nothing exactly when every item can be a dict key; otherwise the first item that cannot |
| Json.UnhashableElement | core/financial_agent.py:177-201 | a TypeError message exactly for a list with an item that cannot be a dict key (a list or a dict) |
| FinancialAgent.FinancialAgent.constructor | core/financial_agent.py:37-40 | the agent holds the given store and model |
| FinancialAgent.FinancialAgent.ClassifyQuery | core/financial_agent.py:70-106 | the state after classification is the classification function of the state before |
| FinancialAgent.FinancialAgent.DecomposeQuery | core/financial_agent.py:112-162 | the state after decomposition is the decomposition function of the state before |
| FinancialAgent.FinancialAgent.ExecuteSearches | core/financial_agent.py:164-205 | the state after the searches is the search function of the state before, on the store's current contents |
| FinancialAgent.FinancialAgent.RunSearches | core/financial_agent.py:174-201 | the loop builds the per-query dict and the concatenated sources |
| FinancialAgent.FinancialAgent.Project | core/financial_agent.py:183-194 | the inner loop builds the rows and sources of one search |
| FinancialAgent.FinancialAgent.BuildContext | core/financial_agent.py:213-220 | the loop builds the context text |
| FinancialAgent.FinancialAgent.AppendResults | core/financial_agent.py:216-217 | the inner loop appends one numbered line per result, in order, after the lines already there |
| FinancialAgent.FinancialAgent.SampleContent | core/financial_agent.py:298-302 | the loop stops at the first query with results |
| FinancialAgent.FinancialAgent.AnswerFrom | core/financial_agent.py:242-317 | the synthesis of one model reply |
| FinancialAgent.FinancialAgent.FallbackFrom | core/financial_agent.py:268-310 | the fallback chain after a failed parse |
| FinancialAgent.FinancialAgent.SynthesizeAnswer | core/financial_agent.py:207-319 | the state after synthesis is the synthesis function of the state before |
| FinancialAgent.FinancialAgent.RunGraph | core/financial_agent.py:53-66 | running the nodes as the entry point and edges order them leaves the state equal to the graph function of the initial state |
| FinancialAgent.FinancialAgent.ProcessQuery | core/financial_agent.py:321-359 | the response is the specified answer for the query on the store's current contents |
| AssignmentValidation.ValidateResponse | assignment_validation.py:123-156 | the loop returns the specified score and details; an unsuccessful result gives score 0 and no details |
| AssignmentValidation.Validated | assignment_validation.py:123-156 | an unsuccessful result gives score 0 and no details; otherwise one detail per required element and a score of at most their number |
| AssignmentValidation.Check | assignment_validation.py:134-147 | a verdict exactly for the twelve names of the checks table |
| AssignmentValidation.ScoreBounds | assignment_validation.py:149-154 | the score never exceeds the number of required elements, and reaches it (or 0) exactly when every (or no) element passes |
| AssignmentValidation.ValidationShape | assignment_validation.py:149-154 | one detail per required element, in order, marked by its check; the score lies between 0 and the number of elements, equalling either end exactly when all or none pass |
| AssignmentValidation.UnsuccessfulScoresZero | assignment_validation.py:127-128 | a failed query validates to score 0, no details |
| AssignmentValidation.UnknownElementFails | assignment_validation.py:150-154 | an element not in the checks table is marked as failed |
| AssignmentValidation.ChecksRelated | assignment_validation.py:134-147 | single retrieval and decomposition are complementary; multiple searches imply multi-step, which implies decomposition; a percentage passes the calculation check |
| AssignmentValidation.Successes | assignment_validation.py:166 | the count of successful queries is at most the number of queries |
| AssignmentValidation.Assess | assignment_validation.py:159-203 | the total is the number of results and the successes are at most that; the RAG verdict is excellent exactly when at least four queries succeeded |
| AssignmentValidation.AssessThresholds | assignment_validation.py:180-203 | the ratio lies in [0, 1]; met exactly when 5·successes ≥ 4·total; partially met from 3·total up to that; not met below it; accuracy is excellent exactly when the status is met |

## Left out

- The language model, `json.loads`, the two regular expressions of the JSON fallback, the
  embedder, FAISS, the HTML and PDF readers, the sentence split, `identify_sections` and
  MD5 are inputs. The model takes whatever they return and does not model how they compute it.
- The prompt texts are not modelled. A prompt is named by its kind and by the query and
  context it carries.
- All `print` logging, `time.sleep` and the HTTP headers are left out; they have no effect
  on results.
- `_save_index` and `_get_embedding_dimension` are left out. What a later load reads back
  is an input (`IndexFiles`), so the model does not capture the actual write.
- `extract_text_from_pdf` is left out, and so is the HTML clean-up inside
  `extract_text_from_html`. Both are text extraction in third-party libraries; the
  cleaned text or the error is an input.
- The file system is a fixed predicate for the length of one run. A file written by one
  download is not seen by a later `exists()` in the same run.
- `download_dir` is used as given. `Path` normalisation, such as removing a trailing
  slash, is not modelled.
- Paths are POSIX paths split on `/`.
- Floating-point scores and ratios are exact reals. Rounding of `float` is not modelled.
- `Lower` folds ASCII letters only.
- Submissions arrays are assumed to hold strings.
- `models/schemas.py` is modelled as pydantic v2 validation. A non-string
  `answer`/`reasoning` value or a non-list-of-strings `sub_queries` value is rejected. The
  rejection text is an input (`rejection`).
- FinancialAgent.Searched: when `sub_queries` is a str, a dict, or a list whose elements
  are all hashable but not all strings, the model runs no searches, while the source
  iterates over the value and searches each element. In those cases the final answer is
  the validation rejection either way (`UntypedSubQueries`); the searches' results are
  not modelled. A list holding a list or dict is modelled: it aborts with the
  "unhashable type" TypeError, whose text follows CPython's.
- DocumentProcessor.SortByStart: stable ordering of equal start positions is not proved.
  The model proves a sorted permutation only. `GetSectionForPosition` breaks ties by list
  order.
- `api/`, `main.py`, `demo.py`, `run_ingestion.py`, `factory.py` and
  `quick_test_scenarios.py` are not part of this model. The HTTP driver
  `validate_assignment` and `test_query` of the validator is not part of it either; its
  outcome is the input `QueryOutcome`.
- AssignmentValidation.Assess: an empty result list is excluded by a precondition. The
  source divides by zero there.
