# Web4 CLI publishing and discovery tools, modelled in Dafny

The repository has two command-line tools that work with the Irys data network:

- `upload.js` publishes a hypertext page or a JSON component. It tags the
  upload by file extension. Before uploading, it tops up the wallet's storage
  balance when the balance is below the price (lazy funding). After uploading,
  it records the upload in a local history of at most 100 entries, newest
  first.
- `query.js` finds published components by tag. It builds a GraphQL document
  with one filter per setting, limited to one fixed publisher. It can also
  fetch one transaction directly by id. It decodes each result edge's tag list
  into a name-to-value dictionary in which the last tag wins.

The model keeps each piece in the form the source gives it:

- Argument parsing is a `method` with a loop. It is proved equal to a
  left-to-right fold (`Settings`) of one-step functions.
- Filter selection and document rendering are functions.
- The edge and tag loops are methods proved against `TagMap` and `RowOf`.
- Network, filesystem and SDK calls go through two objects, `Query.Transport`
  and `Upload.Gateway`. Their answers are arbitrary. Each call and its answer
  is appended to a ghost trace.
- The drivers (`Query.Run`, `Upload.UploadFile`, `Upload.Run`) are methods.
  Each is proved to produce a trace and result described by a predicate
  (`Query.IsRun`, `Upload.IsUploadRun`). The lemmas then state what those
  predicates imply.
- The history file is a `Journal` object whose stored value the save operation
  replaces.

Files:

- `common.dfy` (module `Common`): nullable strings and JavaScript truthiness,
  `startsWith`, `split('=')[1]`, decimal printing and the leading-digit part of
  `parseInt`, and `JSON.stringify` of a string together with its reader.
- `tags.dfy` (module `Tags`): tags, filters, how a filter matches, and the tag
  dictionary.
- `query.dfy` (module `Query`): the discovery tool.
- `upload.dfy` (module `Upload`): the publishing tool.
- `publish.dfy` (module `Publish`): how the two tools meet. It states when the
  tags the upload tool puts on a component pass the tag filters of a discovery
  search, and when they fail one of them.

## Model

| member | source | states |
|---|---|---|
| Common.SecondField | query.js:38 | `split('=')[1]` of an argument is the text between its first and second `=`, or up to the end when there is no second one |
| Common.SecondFieldAfterName | upload.js:23 | for an argument `name=rest` whose name has no `=`, the value is `rest` up to its first `=` |
| Common.ParseInt | query.js:44 | `parseInt` of a value is NaN exactly when the value is empty or does not start with a decimal digit |
| Common.ParseIntDecimal | query.js:44 | `parseInt` reads back exactly the number that decimal printing wrote, whatever non-digit text follows it, and the document then prints that same number |
| Common.Escape | query.js:160 | the body `JSON.stringify` writes for a value is at least as long as the value and leaves no control character raw |
| Common.Quote | query.js:160 | `JSON.stringify` of a filter value is enclosed in double quotes and contains no raw control character |
| Common.Unquote | query.js:160 | the reader of `JSON.stringify`'s output accepts only text enclosed in double quotes, and what it reads is no longer than the text between them |
| Common.QuoteRoundTrip | query.js:160 | the JSON string literal written for a filter value is read back by `JSON.parse` as that value |
| Tags.TagMap | query.js:262 | every tag's name is a key of the dictionary, and every key maps to the value of some tag with that name |
| Tags.TagMapLastWins | query.js:261-262 | the dictionary built from an edge's tags has a key exactly when some tag has that name, and maps it to the value of the last such tag |
| Tags.DecodeTags | query.js:262 | the `forEach` loop builds exactly `TagMap` of the tag list |
| Tags.ShownTag | query.js:267-268 | a displayed tag is the last value with that name, or `-` when no tag has the name or that value is empty |
| Query.ParseArgs | query.js:22-53 | the argument loop returns the left-to-right fold of the one-step rule over `process.argv.slice(2)`, starting from the defaults |
| Query.LastFlagWins | query.js:33-50 | each flag's setting is taken from its last occurrence (for `--limit`, its `parseInt`); a flag that never occurs keeps its default |
| Query.PrefixesExclusive | query.js:37-48 | an argument starts with at most one of the six flag prefixes, so the order of the else-if chain never decides between them |
| Query.UnknownArgumentIgnored | query.js:33-50 | an argument that is neither help nor a known flag changes no setting |
| Query.HelpRequested | query.js:35-36 | help is set exactly when some argument is `--help` or `-h`, wherever it stands among the others |
| Query.ValueStopsAtSecondEq | query.js:38 | the value stops at a second `=`: `--type=v=w` sets the type to `v` for every `v` without `=` (so `--type=a=b` gives `a`) |
| Query.FilterList | query.js:144-157 | the filters are Content-Type (unless the content type is empty or `any`), then the discovery tag with the type, then Version, each present exactly when its setting is truthy, in that order |
| Query.NoContentTypeFilterForAny | query.js:147-149 | with content type `any` or empty, no filter is on Content-Type, unless the discovery tag is itself named Content-Type |
| Query.DiscoveryFilter | query.js:151-153 | every filter other than Content-Type and Version is the configured tag with the single type value; with default settings the only filter is Content-Type `application/json` |
| Query.BuildQuery | query.js:144-183 | the pushes onto the local list and the template string produce `QueryDocument` of the settings |
| Query.DocumentScope | query.js:168-170 | every document restricts the search to the owner, carries the result limit as printed, and asks for newest-first order |
| Query.DocumentDeterministic | query.js:144-183 | the document depends only on the content type, type, tag, version, limit and owner |
| Query.FilterValueReadable | query.js:160 | the quoted value written for a filter can be read back, exactly, from the filter's text |
| Query.Transport.FetchContent | query.js:125-142 | the content request is recorded with its arbitrary reply |
| Query.Transport.FetchGraphQL | query.js:93-123 | the search request is recorded with its arbitrary `Ok` or `Err` reply |
| Query.Search | query.js:240-272 | the search branch sends exactly one document and reports failure, no matches or the rows of every edge, as `IsSearch` describes |
| Query.DecodeEdges | query.js:259-272 | one row per edge, in order, each being `RowOf` that edge: id, discovery tag, Version, Unix-Time, content link |
| Query.Run | query.js:185-283 | the driver makes exactly the requests and gives exactly the report that `IsRun` describes for the settings |
| Query.TxidBypassesSearch | query.js:198-222 | with an id and no help, exactly one content request is made, no search is sent, and both success and failure exit with status 0 |
| Query.MissingTypeStopsEarly | query.js:225-229 | with no id and a null or empty type, no request is made and the exit status is 1 |
| Query.EmptyResultIsNoMatch | query.js:240-252 | a search sends exactly the built document; a reply without edges reports no matches with status 0; the exit status is 1 exactly when the search failed |
| Query.FoundRows | query.js:254-272 | a found result lists every returned edge in order, with the dictionary's values for the discovery tag and Version |
| Upload.ParseArgs | upload.js:9-32 | the argument loop returns the left-to-right fold of the one-step rule, starting from the defaults |
| Upload.FileIsLastPlainArgument | upload.js:20-21 | the file is the last argument not starting with `--`; with no such argument there is no file |
| Upload.LastFlagWins | upload.js:22-28 | `--type`, `--version` and `--tag` each take their last occurrence's value and otherwise keep their defaults |
| Upload.Extension | upload.js:158 | the extension is empty or a single leading dot with no dot after it, and it is a suffix of the base name |
| Upload.ExtensionAtLastDot | upload.js:158 | the extension is empty exactly when the name has no dot, has its last dot in front, or is `..`; otherwise it is the text from the last dot on |
| Upload.DotFileHasNoExtension | upload.js:158 | a dot-file such as `.json` or `.html` has no extension |
| Upload.ExtNameAtLastDot | upload.js:158 | `path.extname` is empty or a dot with no dot after it; it is the base name's text from its last dot, and it is empty exactly when the base name has no dot, has its last dot in front, or is `..` |
| Upload.ExtNameOf | upload.js:158 | under a prefix that is empty or ends in `/`, a name `stem.e` with no `/` in it, a non-empty stem, no dot in `e`, and that is not `..`, has extension `.e` |
| Upload.ExtensionOf | upload.js:158 | a name `stem.e` with a non-empty stem, no dot in `e`, and that is not `..`, has extension `.e` |
| Upload.BaseName | upload.js:102 | the recorded name contains no `/` |
| Upload.BaseNameIsLastComponent | upload.js:102 | the recorded name is the end of the path once its trailing slashes are removed, starting at the beginning or right after a `/` |
| Upload.BaseNameOf | upload.js:102 | under a prefix that is empty or ends in `/`, a non-empty name without `/` is the recorded base name |
| Upload.PlanFor | upload.js:146-183 | the run goes on exactly when there is a truthy file whose extension is `.html`/`.htm`, or `.json` with a truthy type; the chosen tags are three, starting with Content-Type and ending with Version |
| Upload.TagSetRules | upload.js:162-183 | pages get `text/html`, App-Name and Version; JSON gets `application/json`, the discovery tag with the non-empty type, and Version; JSON without a type and any other extension are rejected with the reason |
| Upload.Gateway.GetPrice | upload.js:37 | the price query is recorded with the size and its arbitrary answer |
| Upload.Gateway.GetBalance | upload.js:38 | the balance query is recorded with its arbitrary answer |
| Upload.Gateway.Fund | upload.js:43 | the top-up is recorded with its amount and its arbitrary answer |
| Upload.Gateway.SubmitFundTransaction | upload.js:44 | the submission is recorded with the transaction id and its arbitrary answer |
| Upload.Funding | upload.js:35-52 | the funding protocol takes one to four calls, and a success comes only after two of them or after four |
| Upload.LazyFund | upload.js:35-52 | the calls made and the success flag are exactly those that `Funding` reads off the trace |
| Upload.TwoCallSuccessIffCovered | upload.js:41 | funding succeeds after just the price and balance calls exactly when both answered and the balance is not below the price |
| Upload.ShortfallIsToppedUp | upload.js:41-44 | on a shortfall the third call is a top-up of the whole price; when that top-up returns a transaction, the fourth and last call submits that transaction's id |
| Upload.CoveredBalanceNotFunded | upload.js:41 | a balance not below the price leads to success after two calls with no top-up |
| Upload.TopUpIsThePrice | upload.js:41-44 | a top-up happens only on a shortfall and is for the whole price (not the difference); a submission comes only right after a top-up and carries that top-up's transaction id |
| Upload.FundingOkIffNothingThrown | upload.js:36-51 | funding reports success exactly when none of its calls threw |
| Upload.Gateway.Exists | upload.js:72 | the existence check is recorded with the path and its arbitrary answer |
| Upload.Gateway.Read | upload.js:76 | the read is recorded with the path and its arbitrary bytes or error |
| Upload.Gateway.Upload | upload.js:92 | the upload call is recorded with the data, the tags and the arbitrary receipt |
| Upload.Prepended | upload.js:129-134 | the new history has the new entry first, then the old entries in order, cut to 100 |
| Upload.Journal.SaveUploadHistory | upload.js:117-138 | a missing or unreadable file counts as empty; an array gets the entry prepended and is cut to 100; a non-array value makes the save throw and leaves the file unchanged |
| Upload.CapAfterCap | upload.js:132-134 | cutting to the limit before or after prepending gives the same list |
| Upload.ReplayIsCappedReverse | upload.js:117-138 | saving entries one after another gives them newest first, followed by the old history, cut to 100 |
| Upload.HistoryAfterPublishes | upload.js:129-134 | after `n` saves into an empty history it holds all `n` entries newest first, or the 100 most recent when `n > 100` |
| Upload.UploadFile | upload.js:70-114 | the calls made, the receipt and the new history are exactly those that `IsUploadRun` describes |
| Upload.MissingFileStopsFirst | upload.js:72-74 | when the file does not exist, the only call is the existence check, the history is untouched and the failure names the path |
| Upload.FailureWritesNoHistory | upload.js:110-113 | a failed run leaves the history file as it was |
| Upload.FundAndUpload | upload.js:86-109 | after the read, the calls made, the receipt and the new history are exactly those that `AfterRead` describes: funding, then (only when it succeeded) the upload and the history |
| Upload.UploadAndRecord | upload.js:92-109 | after funding, one upload call; on an id, the entry is saved into a history that is missing, unreadable or an array, and the receipt is the id with its gateway link; a history holding a non-array is left alone and the run fails with `HistoryNotAList` |
| Upload.FundingFailureUploadsNothing | upload.js:86-89 | when funding fails, no upload call is made |
| Upload.SuccessPublishesOnce | upload.js:72-109 | a successful run makes the existence check, the read and the price query first, and exactly one upload, as its last call, of the bytes read with the chosen tags; it returns the gateway link of that upload's id |
| Upload.SuccessRecordsOneEntry | upload.js:99-107 | a successful run puts one entry at the head of the history, with the time, the base name, the id, its link, the size read and the tags; the older entries follow in order, cut to 100 |
| Upload.Run | upload.js:141-200 | a rejected plan and a missing uploader make no call and write no history; otherwise exactly one upload run follows, with the chosen file and tags; the exit status is 0 exactly when that run returned a published receipt, which an upload with an id does not when the history holds a non-array |
| Publish.ComponentTags | upload.js:169-179 | a JSON file with a type is published with Content-Type `application/json`, the discovery tag with the type, and Version |
| Publish.UploadedComponentPassesFilters | query.js:144-157 | a component uploaded under tag `n` with type `k` passes every filter of a search for `k` under `n` that asks for its version or no version, with content type `application/json`, `any` or empty |
| Publish.OtherVersionIsMissed | query.js:155-157 | a search for another version always fails on its Version filter, unless the discovery tag is itself named Version and the type is the requested version |
| Publish.DefaultTagsMissEachOther | upload.js:15 | the upload tool's default discovery tag `web4-test` differs from the query tool's `istartproject`, so a search without `--tag` does not find a component uploaded without `--tag` |
| Publish.PageMissesDefaultContentType | upload.js:162-168 | a page is tagged `text/html`, so it fails the Content-Type filter of a search with the default content type |

## Left out

- Network and SDK: the HTTPS requests, the GraphQL endpoint, wallet set-up
  from `PRIVATE_KEY` (`getIrysUploader`) and the Solana SDK are not modelled.
  Their replies are arbitrary values recorded in `Transport` and `Gateway`.
  Whether the uploader could be set up is the `ready` parameter of
  `Upload.Run`.
- Console output is left out: the help text, banners, the KB size label,
  `fromAtomic` amounts and the per-row time display. `toLocaleString` of
  Unix-Time is not modelled. A row keeps the raw value.
- Upload.Entry: the `size` field holds the byte count, not the `"<kb> KB"`
  string built with `toFixed(2)`, because floating-point formatting is not
  modelled.
- The clock is left out. The timestamp `new Date().toISOString()` is the `now`
  parameter.
- JSON pretty-printing of fetched content is left out. Whether it parses as
  JSON is the `isJson` parameter of `Query.Run`.
- The history file's text and its `JSON.parse` are abstracted. The file is one
  of: missing, unparsable, an array of entries, or some other JSON value. The
  path `__dirname/upload-history.json` is not modelled.
- Upload.Journal.SaveUploadHistory: a failure of `writeFileSync` is not
  modelled; the write always succeeds.
- Common.Unescape: an escape `\uD800` to `\uDFFF` is read as malformed,
  because a Dafny `char` cannot hold a lone surrogate. `JSON.parse` accepts
  one. A raw control character, which `JSON.parse` rejects, is accepted. The
  writer produces neither.
- Common.ParseInt: only leading decimal digits are read. Leading whitespace,
  signs, a `0x` prefix and numbers beyond 2^53 are not modelled.
- Tags.Satisfies: how the indexing service matches a filter is an assumed
  meaning (some tag has the filter's name and one of its values); the service is
  not part of this model. The `Publish` lemmas therefore say only whether the
  tags pass or fail the tag filters, not whether a search returns the
  component. That also depends on the fixed `owners: [Owner]` filter
  (query.js:168) matching the wallet loaded from `PRIVATE_KEY` (upload.js:60),
  and on the `first: limit` cut (query.js:169); neither is modelled.
- Tags.TagMap: the dictionary is a plain map, so the entries a JavaScript
  object like `{}` inherits by name (such as `constructor`) are not modelled.
- Query.Run: a malformed edge is not modelled, such as one without `node` or
  `tags`, which would throw inside the search's `try`. The edges are
  well-formed values.
- Query.Transport.FetchGraphQL: `Content-Length` counted in UTF-16 units and
  HTTP status codes are not modelled.
- The promise `catch` around `main()` and `query()` is not modelled. Every
  modelled error is caught where the source catches it.
- `project/title.js` and the sample components under `project/` are not part
  of this model.

Two behaviours of the code that a reader may not expect:

- A failed fetch by id (query.js:218-221) prints the error and returns. The
  exit status is 0, not an error status.
- A history file holding a JSON value that is not an array makes `unshift`
  throw (upload.js:129). This happens after the upload already succeeded, so
  the run reports failure although the transaction was published
  (`Upload.Failure.HistoryNotAList`).
