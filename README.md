# farcaster-parser in Dafny

A model of farcaster-parser, the Kotlin library that splits a Farcaster post into typed
spans: plain text, URLs, `$`cashtags, `@`mentions, `/`channels and custom-user
handles such as `name.twitter`. Parsing has two stages, and the model follows both.

1. **Tokenizer** (`Tokenizer.kt`, `State.kt`). A state machine reads the post one
   character at a time and writes one `TokenCharacterType` label per character into a
   category array. The array has one extra slot for the end of input.
   - The model states the machine twice:
     - as pure step functions over a configuration (module `States`);
     - as an imperative `Tokenizer` class. Its `tokens` array, its `currentState` field and the per-state `read` methods
       (module `Tokenization`) are each proved to perform exactly the pure step.
   - Module `StateProperties` proves what a whole parse does:
     - every character slot gets a real label and the sentinel slot gets `Eof`;
     - each kind of token is labelled as a unit ("big steps" from `DataState` back to `DataState`).
2. **Tree builder** (`TreeBuilder.kt`). It cuts the array into maximal runs of one
   category and turns each run into a `Node` carrying the run's text. It then drops the
   first `EofNode`.
   - Module `TreeBuilding` defines the run decomposition (`Runs`) and proves it unique.
   - `Build`, the imperative loop, is proved to compute it.
   - The concatenated node texts are proved to give back the input.

`FarcasterParsing.Parse` is the façade `FarcasterParser.parse`. Module `ParserExamples`
follows the mixed post of the library's tree-builder test through both stages. It
proves the twelve nodes that the code produces. Module `SinglePosts` proves, for each
kind of entity, that a post made of that entity alone is labelled with its category on
every slot and parses to one node. The library's single-entity tokenizer and
tree-builder tests are instances. Two tokenizer tests, `/test/test` and
`vision.io/0x/dos`, expect labels the code does not produce. For both, the model states
the labels of the code as written:
- in `/test/test`, the second `/` follows a letter, so it opens no channel;
- in `vision.io/0x/dos`, the headless URL stops at the first `/`, which is not a URL character.

The character reader (`Reader`, `StringReader`) is not part of this model. Module `Readers`
rebuilds it from the way it is used:
- a cursor over the text followed by one virtual end-of-input symbol;
- `length` is the text length plus one;
- `readAt`, `consume`, `consume(n)`, `pushback` and `isFollowedBy`.

Behaviour of the code as written that the model keeps:
- `DataState` dispatches on a lowercase `h` only. The rest of the scheme is matched ignoring case.
- The suffix branch of `DotState` relabels the whole word back to the last empty character as a custom user.
- A `-` right after `@` qualifies the mention, but the user-name body does not contain `-`.
- When `HeadlessUrlState` meets its terminator, the backward URL scan starts just past the terminator. That character is not a URL character, so the scan returns the cursor itself.
  - Both relabellings then cover an empty range.
  - The domain table never changes a label (`Tokenization.EndHeadlessUrl`).
- `DotState` writes `TokenCharacterType.TwitterUser` and `LensterUser`, and the tests expect `TwitterUserNode` and `LensterUserNode`. None of these four names is declared in `TokenCharacterType.kt` or `Node.kt`. The model follows the declared enumeration and writes `CustomUser`, which becomes a `CustomUserNode`.

## Model

| member | source | states |
|---|---|---|
| TokenCharacterTypes.ExactlyNineCategories | src/commonMain/kotlin/moe/tlaster/farcaster/parser/tokenizer/TokenCharacterType.kt:3-13 | the enumeration has exactly nine pairwise distinct categories and every category is among them |
| Nodes.FlattenAppend | src/commonMain/kotlin/moe/tlaster/farcaster/parser/tree/Node.kt:3-19 | the text of concatenated node lists is the concatenation of their texts |
| Nodes.FlattenEmpty | src/commonMain/kotlin/moe/tlaster/farcaster/parser/tree/Node.kt:3-19 | the concatenated node texts are empty exactly when every node's text is empty |
| Readers.FollowedByMatchesEachChar | src/commonMain/kotlin/moe/tlaster/farcaster/parser/tokenizer/State.kt:59 | `isFollowedBy(s, ignoreCase)` holds exactly when `s` fits before the end and every character of `s` matches the text at the cursor, in both directions |
| Readers.Reader.Consume | src/commonMain/kotlin/moe/tlaster/farcaster/parser/tokenizer/State.kt:45 | returns the symbol under the cursor (the sentinel at the end) and advances the cursor by one |
| Readers.Reader.ConsumeN | src/commonMain/kotlin/moe/tlaster/farcaster/parser/tokenizer/State.kt:62 | advances the cursor by `count` without passing the end |
| Readers.Reader.Pushback | src/commonMain/kotlin/moe/tlaster/farcaster/parser/tokenizer/State.kt:80 | moves the cursor back by one |
| States.WordStart | src/commonMain/kotlin/moe/tlaster/farcaster/parser/tokenizer/State.kt:25-36 | the start of the word that ends at the cursor: nothing from it to the cursor is an empty character, and it is 0 or just after an empty character |
| States.UrlRunStart | src/commonMain/kotlin/moe/tlaster/farcaster/parser/tokenizer/State.kt:202-213 | the start of the run of `[A-Za-z0-9.-]` that ends at the cursor: all of the run is URL characters, and it is 0 or just after a non-URL symbol |
| States.FirstSuffix | src/commonMain/kotlin/moe/tlaster/farcaster/parser/tokenizer/State.kt:217-227 | the first suffix in list order that follows the cursor, ignoring case; none exactly when no suffix follows |
| States.Fill | src/commonMain/kotlin/moe/tlaster/farcaster/parser/tokenizer/Tokenizer.kt:27-31 | slots in `[start, end)` get the label and every other slot keeps its own; the length is unchanged |
| States.DataStep | src/commonMain/kotlin/moe/tlaster/farcaster/parser/tokenizer/State.kt:43-55 | `DataState` consumes exactly one symbol and keeps the configuration well formed |
| States.Run | src/commonMain/kotlin/moe/tlaster/farcaster/parser/tokenizer/Tokenizer.kt:11-13 | the parse loop terminates, having consumed the sentinel, back in `DataState` |
| States.Step | src/commonMain/kotlin/moe/tlaster/farcaster/parser/tokenizer/State.kt:39-41 | every `read` keeps the configuration well formed and strictly lowers the termination measure |
| States.PrevIsSpaceAtWordBoundary | src/commonMain/kotlin/moe/tlaster/farcaster/parser/tokenizer/State.kt:20-23 | `prevIsSpace` holds exactly when the word ending just before the character read is empty, that is at the start of the text or after an empty character |
| States.HStep | src/commonMain/kotlin/moe/tlaster/farcaster/parser/tokenizer/State.kt:57-72 | the read of `h`'s state keeps the configuration well formed and lowers the measure; its three outcomes are `StateProperties.SchemeStep` |
| States.BodyStep | src/commonMain/kotlin/moe/tlaster/farcaster/parser/tokenizer/State.kt:74-256 | the body states (url, cashtag, user name, channel name, headless url) keep the configuration well formed and lower the measure; a labelled run is `StateProperties.BodyRun` |
| States.DollarStep | src/commonMain/kotlin/moe/tlaster/farcaster/parser/tokenizer/State.kt:90-106 | the read after `$` keeps the configuration well formed and lowers the measure; its outcomes are `StateProperties.CashTagRun` |
| States.AtStep | src/commonMain/kotlin/moe/tlaster/farcaster/parser/tokenizer/State.kt:124-140 | the read after `@` keeps the configuration well formed and lowers the measure; its outcomes are `StateProperties.UserNameRun` |
| States.SlashStep | src/commonMain/kotlin/moe/tlaster/farcaster/parser/tokenizer/State.kt:163-184 | the read after `/` keeps the configuration well formed and lowers the measure; its outcomes are `StateProperties.ChannelRun` |
| States.DotStep | src/commonMain/kotlin/moe/tlaster/farcaster/parser/tokenizer/State.kt:215-235 | the read after `.` keeps the configuration well formed and lowers the measure; its outcomes are `StateProperties.SuffixRun` and `StateProperties.HeadlessUrlRun` |
| States.Initial | src/commonMain/kotlin/moe/tlaster/farcaster/parser/tokenizer/Tokenizer.kt:10 | the configuration `parse` starts from (DataState, position 0, every slot UnKnown) is well formed |
| States.Tokenize | src/commonMain/kotlin/moe/tlaster/farcaster/parser/tokenizer/Tokenizer.kt:9-15 | the array `parse` returns has one slot per character plus the sentinel; its labels are stated by `StateProperties.TokenizeLabelsEverySlot` |
| Tokenization.LastIndexOf | src/commonMain/kotlin/moe/tlaster/farcaster/parser/tokenizer/Tokenizer.kt:38 | `indexOfLast`: -1 or an index holding the value, with no later index holding it |
| Tokenization.Rejected | src/commonMain/kotlin/moe/tlaster/farcaster/parser/tokenizer/Tokenizer.kt:37-42 | after `reject(position)` every slot after the last Character below `position` and before `position - 1` is Character; every other slot (the last Character and all before it, and the slots from `position - 1` on) keeps its label |
| Tokenization.RejectIdempotent | src/commonMain/kotlin/moe/tlaster/farcaster/parser/tokenizer/Tokenizer.kt:37-42 | rejecting twice at one position is rejecting once |
| Tokenization.RejectAfterCharacterIsNoOp | src/commonMain/kotlin/moe/tlaster/farcaster/parser/tokenizer/Tokenizer.kt:37-42 | rejecting right after a Character changes nothing |
| Tokenization.Tokenizer.constructor | src/commonMain/kotlin/moe/tlaster/farcaster/parser/tokenizer/Tokenizer.kt:3-7 | a new tokenizer keeps its configuration and starts in `DataState`; both parameters default as in the source |
| Tokenization.Tokenizer.Parse | src/commonMain/kotlin/moe/tlaster/farcaster/parser/tokenizer/Tokenizer.kt:9-15 | fills a fresh array of reader-length `UnKnown`s and runs the states until the reader is exhausted; the result is `Tokenize` of the text and `readAt` returns its slots, one slot per reader symbol, ending in `DataState` |
| Tokenization.Tokenizer.ReadAt | src/commonMain/kotlin/moe/tlaster/farcaster/parser/tokenizer/Tokenizer.kt:44-46 | `readAt(position)` returns slot `position` of the array; after `parse` (by `Parse`'s contract) that is slot `position` of `Tokenize` of the text |
| Tokenization.Tokenizer.Emit | src/commonMain/kotlin/moe/tlaster/farcaster/parser/tokenizer/Tokenizer.kt:17-19 | writes slot `index - 1` and nothing else |
| Tokenization.Tokenizer.EmitRange | src/commonMain/kotlin/moe/tlaster/farcaster/parser/tokenizer/Tokenizer.kt:27-31 | the array becomes `Fill` of the old array over `[start, end)`; nothing changes when `end <= start` |
| Tokenization.Tokenizer.Switch | src/commonMain/kotlin/moe/tlaster/farcaster/parser/tokenizer/Tokenizer.kt:33-35 | sets the current state |
| Tokenization.Tokenizer.Reject | src/commonMain/kotlin/moe/tlaster/farcaster/parser/tokenizer/Tokenizer.kt:37-42 | the array becomes `Rejected` of the old array |
| Tokenization.Tokenizer.Accept | src/commonMain/kotlin/moe/tlaster/farcaster/parser/tokenizer/Tokenizer.kt:48-49 | changes nothing |
| Tokenization.FindBackwardSpace | src/commonMain/kotlin/moe/tlaster/farcaster/parser/tokenizer/State.kt:25-36 | the backward loop returns the word start: no empty character between it and the cursor, 0 or just after an empty character, equal to `WordStart` |
| Tokenization.FindBackwardValidUrl | src/commonMain/kotlin/moe/tlaster/farcaster/parser/tokenizer/State.kt:202-213 | the backward loop returns the URL-run start: only URL characters between it and the cursor, 0 or just after a non-URL symbol, equal to `UrlRunStart` |
| Tokenization.Read | src/commonMain/kotlin/moe/tlaster/farcaster/parser/tokenizer/Tokenizer.kt:11-13 | `currentState.read` performs exactly `Step` on the tokenizer's state, cursor and array and keeps them consistent |
| Tokenization.ReadDataState | src/commonMain/kotlin/moe/tlaster/farcaster/parser/tokenizer/State.kt:43-55 | performs `DataStep`: `h $ @ / .` switch to their states; the sentinel is labelled Eof; any other character is labelled Character |
| Tokenization.ReadHState | src/commonMain/kotlin/moe/tlaster/farcaster/parser/tokenizer/State.kt:57-72 | performs `HStep`: `ttps://` or else `ttp://` (any case) labels the scheme Url, skips it and enters `UrlState`; otherwise the `h` is Character |
| Tokenization.EmitScheme | src/commonMain/kotlin/moe/tlaster/farcaster/parser/tokenizer/State.kt:60-62 | labels the `h` and the rest of the scheme Url, enters `UrlState` and moves the cursor past the scheme |
| Tokenization.ReadUrlState | src/commonMain/kotlin/moe/tlaster/farcaster/parser/tokenizer/State.kt:74-88 | performs `BodyStep` for `UrlState`: an empty character or the end goes back to `DataState` unconsumed, anything else is Url |
| Tokenization.ReadDollarState | src/commonMain/kotlin/moe/tlaster/farcaster/parser/tokenizer/State.kt:90-106 | performs `DollarStep`: an alphanumeric after `$` labels the `$` Cash and enters `CashTagState`, otherwise the `$` is Character; the symbol is pushed back either way |
| Tokenization.ReadCashTagState | src/commonMain/kotlin/moe/tlaster/farcaster/parser/tokenizer/State.kt:108-122 | performs `BodyStep` for `CashTagState`: alphanumerics are Cash, anything else goes back unconsumed |
| Tokenization.ReadAtState | src/commonMain/kotlin/moe/tlaster/farcaster/parser/tokenizer/State.kt:124-140 | performs `AtStep`: `[A-Za-z0-9_-]` after `@` labels the `@` UserName and enters `UserNameState`, otherwise the `@` is Character |
| Tokenization.ReadUserNameState | src/commonMain/kotlin/moe/tlaster/farcaster/parser/tokenizer/State.kt:142-161 | performs `BodyStep` for `UserNameState`: `[A-Za-z0-9_]`, plus `.` when enabled, is UserName, anything else goes back unconsumed |
| Tokenization.ReadSlashState | src/commonMain/kotlin/moe/tlaster/farcaster/parser/tokenizer/State.kt:163-184 | performs `SlashStep`: at the start or after an empty character, `[A-Za-z0-9_-]` labels the `/` Channel; otherwise the `/` is Character |
| Tokenization.ReadChannelNameState | src/commonMain/kotlin/moe/tlaster/farcaster/parser/tokenizer/State.kt:186-200 | performs `BodyStep` for `ChannelNameState`: `[A-Za-z0-9_-]` is Channel, anything else goes back unconsumed |
| Tokenization.ReadDotState | src/commonMain/kotlin/moe/tlaster/farcaster/parser/tokenizer/State.kt:215-234 | performs `DotStep`: `twitter` or else `lens` (any case) relabels the word through the suffix and skips the suffix; otherwise the URL run up to the dot is Url and `HeadlessUrlState` begins |
| Tokenization.EmitCustomUser | src/commonMain/kotlin/moe/tlaster/farcaster/parser/tokenizer/State.kt:217-226 | labels `[WordStart, cursor + suffix length)` as custom user, consumes the suffix and returns to `DataState` |
| Tokenization.LastSegment | src/commonMain/kotlin/moe/tlaster/farcaster/parser/tokenizer/State.kt:241 | `split('.').lastOrNull()`: a dot-free suffix of the value that is the whole value or starts right after a dot |
| Tokenization.ReadHeadlessUrlState | src/commonMain/kotlin/moe/tlaster/farcaster/parser/tokenizer/State.kt:236-257 | performs `BodyStep` for `HeadlessUrlState`: URL characters are Url, anything else goes back unconsumed |
| Tokenization.EndHeadlessUrl | src/commonMain/kotlin/moe/tlaster/farcaster/parser/tokenizer/State.kt:239-250 | the terminator branch leaves every label as it is, returns to `DataState` and pushes the terminator back |
| Tokenization.RelabelDomain | src/commonMain/kotlin/moe/tlaster/farcaster/parser/tokenizer/State.kt:242-249 | with the range starting at the cursor, the known-domain relabelling changes no label; then back to `DataState` with the terminator pushed back |
| Tokenization.EqualsIgnoreCaseMatches | src/commonMain/kotlin/moe/tlaster/farcaster/parser/tokenizer/State.kt:242 | `equals(value, ignoreCase = true)` holds exactly when the two have the same length and the domain matches the value character by character ignoring case |
| Tokenization.IsKnownDomainMatches | src/commonMain/kotlin/moe/tlaster/farcaster/parser/tokenizer/State.kt:242 | `DomainList.any { … }` holds exactly when some entry of the table has the value's length and matches it ignoring case |
| StateProperties.TokenizeLabelsEverySlot | src/commonMain/kotlin/moe/tlaster/farcaster/parser/tokenizer/Tokenizer.kt:9-15 | the returned array has one slot per character plus the sentinel slot; every character slot holds a label other than UnKnown, Eof and HashTag, and the sentinel slot holds Eof |
| StateProperties.RunKeepsLabels | src/commonMain/kotlin/moe/tlaster/farcaster/parser/tokenizer/Tokenizer.kt:11-13 | the labelling invariant holds after the loop whenever it holds before it |
| StateProperties.StepKeepsLabels | src/commonMain/kotlin/moe/tlaster/farcaster/parser/tokenizer/State.kt:39-257 | one `read` of any state preserves the labelling invariant |
| StateProperties.ScanWhile | src/commonMain/kotlin/moe/tlaster/farcaster/parser/tokenizer/State.kt:74-88 | the end of the maximal run of a character set from a position: everything up to it is in the set and it is the end or a character outside it |
| StateProperties.ScanWhileUnique | src/commonMain/kotlin/moe/tlaster/farcaster/parser/tokenizer/State.kt:74-88 | any end with those two properties is that end |
| StateProperties.WordStartUnique | src/commonMain/kotlin/moe/tlaster/farcaster/parser/tokenizer/State.kt:25-36 | any start with the word-start properties is `WordStart` |
| StateProperties.BodyRun | src/commonMain/kotlin/moe/tlaster/farcaster/parser/tokenizer/State.kt:74-257 | a body state labels the maximal run of its set with its category and hands the first other symbol back to `DataState` |
| StateProperties.PlainRun | src/commonMain/kotlin/moe/tlaster/farcaster/parser/tokenizer/State.kt:52 | a stretch without `h $ @ / .` is labelled Character slot by slot |
| StateProperties.EndOfInputRun | src/commonMain/kotlin/moe/tlaster/farcaster/parser/tokenizer/State.kt:51 | at the end, the sentinel is labelled Eof and the parse stops |
| StateProperties.CashTagRun | src/commonMain/kotlin/moe/tlaster/farcaster/parser/tokenizer/State.kt:90-122 | `$` and the maximal alphanumeric run after it become Cash when an alphanumeric follows; otherwise the `$` alone is Character |
| StateProperties.UserNameRun | src/commonMain/kotlin/moe/tlaster/farcaster/parser/tokenizer/State.kt:124-161 | `@` and the maximal user-name run after it become UserName when `[A-Za-z0-9_-]` follows; otherwise the `@` alone is Character |
| StateProperties.ChannelRun | src/commonMain/kotlin/moe/tlaster/farcaster/parser/tokenizer/State.kt:163-200 | `/` at a word boundary followed by `[A-Za-z0-9_-]`: it and the maximal run become Channel; otherwise the `/` alone is Character |
| StateProperties.SchemeStep | src/commonMain/kotlin/moe/tlaster/farcaster/parser/tokenizer/State.kt:57-72 | the three outcomes of `HState`, `https://` tried before `http://` |
| StateProperties.HttpsUrlRun | src/commonMain/kotlin/moe/tlaster/farcaster/parser/tokenizer/State.kt:57-88 | `h` + `ttps://` in any case: the scheme and the following run of non-empty characters become Url |
| StateProperties.HttpUrlRun | src/commonMain/kotlin/moe/tlaster/farcaster/parser/tokenizer/State.kt:63-88 | the same for `http://` when `https://` does not match |
| StateProperties.PlainHRun | src/commonMain/kotlin/moe/tlaster/farcaster/parser/tokenizer/State.kt:67-70 | an `h` that starts no scheme is Character |
| StateProperties.SuffixRun | src/commonMain/kotlin/moe/tlaster/farcaster/parser/tokenizer/State.kt:217-226 | `.` followed by a custom-user suffix: the whole word through the suffix becomes custom user, whatever it was labelled before |
| StateProperties.HeadlessUrlRun | src/commonMain/kotlin/moe/tlaster/farcaster/parser/tokenizer/State.kt:227-257 | `.` followed by no suffix: the URL run ending at the dot and the URL run after it become Url |
| TreeBuilding.Runs | src/commonMain/kotlin/moe/tlaster/farcaster/parser/tree/TreeBuilder.kt:11-24 | the runs of an array: no more runs than slots, and none exactly for the empty array |
| TreeBuilding.RunsDecompose | src/commonMain/kotlin/moe/tlaster/farcaster/parser/tree/TreeBuilder.kt:11-24 | `Runs` tiles the array in order with non-empty spans, each span uniform in category, neighbours of different category |
| TreeBuilding.RunsUnique | src/commonMain/kotlin/moe/tlaster/farcaster/parser/tree/TreeBuilder.kt:11-24 | any such maximal-run decomposition is `Runs` |
| TreeBuilding.NodeCategoriesPartition | src/commonMain/kotlin/moe/tlaster/farcaster/parser/tree/TreeBuilder.kt:28-40 | a category determines the kind of node its run becomes |
| TreeBuilding.BuildNode | src/commonMain/kotlin/moe/tlaster/farcaster/parser/tree/TreeBuilder.kt:28-40 | the node's kind is the one for the category (Character and UnKnown give text), and every node other than Eof carries exactly the run's text |
| TreeBuilding.RemoveFirstAbsent | src/commonMain/kotlin/moe/tlaster/farcaster/parser/tree/TreeBuilder.kt:25 | `nodes - x` leaves a list without `x` as it is |
| TreeBuilding.RemoveFirstAt | src/commonMain/kotlin/moe/tlaster/farcaster/parser/tree/TreeBuilder.kt:25 | `nodes - x` removes exactly the first occurrence of `x` |
| TreeBuilding.RemoveFirstLength | src/commonMain/kotlin/moe/tlaster/farcaster/parser/tree/TreeBuilder.kt:25 | `nodes - x` is one element shorter when `x` occurs and the same length otherwise |
| TreeBuilding.Build | src/commonMain/kotlin/moe/tlaster/farcaster/parser/tree/TreeBuilder.kt:7-26 | the loop closes a run at every category change, closes the last run and drops the first EofNode; the result is the nodes of `Runs` without it |
| TreeBuilding.BuildSpecLength | src/commonMain/kotlin/moe/tlaster/farcaster/parser/tree/TreeBuilder.kt:7-26 | `build` returns one node per run of the array except the sentinel's, whose EofNode is dropped |
| TreeBuilding.BuildLossless | src/commonMain/kotlin/moe/tlaster/farcaster/parser/tree/TreeBuilder.kt:7-40 | for an array whose only Eof is the sentinel, the node texts concatenated give back the text |
| TreeBuilding.BuildHasNoEofNode | src/commonMain/kotlin/moe/tlaster/farcaster/parser/tree/TreeBuilder.kt:25 | the sentinel's EofNode is removed and no other exists |
| TreeBuilding.BuildNodesAreNonEmpty | src/commonMain/kotlin/moe/tlaster/farcaster/parser/tree/TreeBuilder.kt:7-26 | every node covers at least one character, so there are no more nodes than characters |
| TreeBuilding.BuildNodesHaveSlotCategories | src/commonMain/kotlin/moe/tlaster/farcaster/parser/tree/TreeBuilder.kt:28-40 | every node's kind comes from the category of some character slot |
| TreeBuilding.BuildEmpty | src/commonMain/kotlin/moe/tlaster/farcaster/parser/tree/TreeBuilder.kt:22-25 | the array of the empty text builds no nodes |
| TreeBuilding.UnKnownBesideCharacter | src/commonMain/kotlin/moe/tlaster/farcaster/parser/tree/TreeBuilder.kt:28-40 | for every array whose only Eof is the sentinel and any two neighbouring runs that are Character and UnKnown, in either order: the runs touch and differ, and they give two neighbouring text nodes of `build`'s result, each holding its own run's text |
| TreeBuilding.CharacterThenUnKnown | src/commonMain/kotlin/moe/tlaster/farcaster/parser/tree/TreeBuilder.kt:28-40 | the smallest instance: `[Character, UnKnown, Eof]` builds the two text nodes of the first and the second character |
| FarcasterParsing.TokenizeOnlyEndsWithEof | src/commonMain/kotlin/moe/tlaster/farcaster/parser/FarcasterParser.kt:10-11 | the default tokenizer's array is exactly what the tree builder needs: Eof only in the sentinel slot, no UnKnown or HashTag in a character slot |
| FarcasterParsing.ParsedIsLossless | src/commonMain/kotlin/moe/tlaster/farcaster/parser/FarcasterParser.kt:9-13 | the texts of the parsed nodes concatenated give back the input |
| FarcasterParsing.ParsedHasNoEofNode | src/commonMain/kotlin/moe/tlaster/farcaster/parser/FarcasterParser.kt:9-13 | the parsed nodes never include EofNode |
| FarcasterParsing.ParsedHasNoHashTagNode | src/commonMain/kotlin/moe/tlaster/farcaster/parser/FarcasterParser.kt:9-13 | no state labels HashTag, so no HashTagNode is ever produced |
| FarcasterParsing.ParsedNodesAreNonEmpty | src/commonMain/kotlin/moe/tlaster/farcaster/parser/FarcasterParser.kt:9-13 | every parsed node has a non-empty text, so there are at most as many nodes as characters |
| FarcasterParsing.ParsedEmpty | src/commonMain/kotlin/moe/tlaster/farcaster/parser/FarcasterParser.kt:9-13 | the empty post parses to no nodes |
| FarcasterParsing.Parse | src/commonMain/kotlin/moe/tlaster/farcaster/parser/FarcasterParser.kt:9-13 | a default tokenizer over one reader and the tree builder over another give `Parsed(input)`, whose texts concatenate to the input |
| ParserExamples.MixedTokens | src/commonTest/kotlin/moe/tlaster/farcaster/parser/tree/TreeBuilderTest.kt:100-104 | the mixed post's category array, slot by slot |
| ParserExamples.MixedRuns | src/commonTest/kotlin/moe/tlaster/farcaster/parser/tree/TreeBuilderTest.kt:100-106 | the mixed post's array has thirteen runs, the last the sentinel's |
| ParserExamples.ParsesAsMixedPost | src/commonTest/kotlin/moe/tlaster/farcaster/parser/tree/TreeBuilderTest.kt:100-124 | the mixed post, stated window by window (the windows fix every character, so this is the one text), parses to the twelve expected nodes |
| ParserExamples.MixedPostParses | src/commonTest/kotlin/moe/tlaster/farcaster/parser/tree/TreeBuilderTest.kt:100-124 | the mixed post parses to the twelve expected nodes, with the two handles as custom-user nodes |
| SinglePosts.SingleRunBuild | src/commonMain/kotlin/moe/tlaster/farcaster/parser/tree/TreeBuilder.kt:7-40 | an array holding one category other than Eof on every text slot builds exactly one node, of that category, over the whole text |
| SinglePosts.MentionLabels | src/commonMain/kotlin/moe/tlaster/farcaster/parser/tokenizer/State.kt:124-161 | `@` followed only by `[A-Za-z0-9_]` characters is labelled UserName on every slot |
| SinglePosts.MentionParses | src/commonMain/kotlin/moe/tlaster/farcaster/parser/tokenizer/State.kt:124-161 | such a mention parses to a single user node holding the whole post |
| SinglePosts.CashTagLabels | src/commonMain/kotlin/moe/tlaster/farcaster/parser/tokenizer/State.kt:90-122 | `$` followed only by ASCII alphanumerics is labelled Cash on every slot |
| SinglePosts.CashTagParses | src/commonMain/kotlin/moe/tlaster/farcaster/parser/tokenizer/State.kt:90-122 | such a cashtag parses to a single cash node holding the whole post |
| SinglePosts.ChannelLabels | src/commonMain/kotlin/moe/tlaster/farcaster/parser/tokenizer/State.kt:163-200 | `/` followed only by `[A-Za-z0-9_-]` characters is labelled Channel on every slot |
| SinglePosts.ChannelParses | src/commonMain/kotlin/moe/tlaster/farcaster/parser/tokenizer/State.kt:163-200 | such a channel parses to a single channel node holding the whole post |
| SinglePosts.LinkLabels | src/commonMain/kotlin/moe/tlaster/farcaster/parser/tokenizer/State.kt:43-88 | a lowercase `h`, the rest of `https://` or `http://` in any case, then non-empty characters, is labelled Url on every slot |
| SinglePosts.LinkParses | src/commonMain/kotlin/moe/tlaster/farcaster/parser/tokenizer/State.kt:43-88 | such a link parses to a single URL node holding the whole post |
| SinglePosts.HeadlessUrlLabels | src/commonMain/kotlin/moe/tlaster/farcaster/parser/tokenizer/State.kt:215-256 | a plain word of URL characters, a `.` not followed by a custom-user suffix, then URL characters to the end, is labelled Url on every slot |
| SinglePosts.HeadlessUrlParses | src/commonMain/kotlin/moe/tlaster/farcaster/parser/tokenizer/State.kt:215-256 | such a headless URL parses to a single URL node holding the whole post |
| SinglePosts.HandleLabels | src/commonMain/kotlin/moe/tlaster/farcaster/parser/tokenizer/State.kt:215-235 | a plain word, a `.` and then exactly `twitter` or `lens` to the end is labelled CustomUser on every slot |
| SinglePosts.HandleParses | src/commonMain/kotlin/moe/tlaster/farcaster/parser/tokenizer/State.kt:215-235 | such a handle parses to a single custom-user node holding the whole post |
| SinglePosts.AtUserNameTokens | src/commonTest/kotlin/moe/tlaster/farcaster/parser/tokenizer/TokenizerTest.kt:8-25 | `@test` is labelled UserName on every slot, then Eof |
| SinglePosts.CashTokens | src/commonTest/kotlin/moe/tlaster/farcaster/parser/tokenizer/TokenizerTest.kt:27-44 | `$test` is labelled Cash on every slot, then Eof |
| SinglePosts.ChannelTokens | src/commonTest/kotlin/moe/tlaster/farcaster/parser/tokenizer/TokenizerTest.kt:46-63 | `/test` is labelled Channel on every slot, then Eof |
| SinglePosts.NotChannelAsWritten | src/commonTest/kotlin/moe/tlaster/farcaster/parser/tokenizer/TokenizerTest.kt:65-75 | `/test/test` as the code labels it: the first five slots Channel, the second `/` and what follows Character (the test expects Character throughout) |
| SinglePosts.DashedChannelTokens | src/commonTest/kotlin/moe/tlaster/farcaster/parser/tokenizer/TokenizerTest.kt:77-99 | `/test-test` is labelled Channel on every slot, then Eof |
| SinglePosts.TwitterUserTokens | src/commonTest/kotlin/moe/tlaster/farcaster/parser/tokenizer/TokenizerTest.kt:101-125 | `test.twitter` is labelled as one custom user on every slot, then Eof |
| SinglePosts.LensterUserTokens | src/commonTest/kotlin/moe/tlaster/farcaster/parser/tokenizer/TokenizerTest.kt:127-148 | `test.lens` is labelled as one custom user on every slot, then Eof |
| SinglePosts.UrlTokens | src/commonTest/kotlin/moe/tlaster/farcaster/parser/tokenizer/TokenizerTest.kt:150-178 | `https://test.com` is labelled Url on every slot, then Eof |
| SinglePosts.HeadlessUrlTokens | src/commonTest/kotlin/moe/tlaster/farcaster/parser/tokenizer/TokenizerTest.kt:180-200 | `test.com` is labelled Url on every slot, then Eof |
| SinglePosts.HostUrlTokens | src/commonTest/kotlin/moe/tlaster/farcaster/parser/tokenizer/TokenizerTest.kt:202-227 | `test.host.com` is labelled Url on every slot, then Eof |
| SinglePosts.VisionUrlAsWritten | src/commonTest/kotlin/moe/tlaster/farcaster/parser/tokenizer/TokenizerTest.kt:229-239 | `vision.io/0x/dos` as the code labels it: `vision.io` Url and the path from the first `/` on Character (the test expects Url throughout) |
| SinglePosts.UserNameNodes | src/commonTest/kotlin/moe/tlaster/farcaster/parser/tree/TreeBuilderTest.kt:10-23 | `@test` parses to one user node |
| SinglePosts.ChannelNodes | src/commonTest/kotlin/moe/tlaster/farcaster/parser/tree/TreeBuilderTest.kt:25-38 | `/test` parses to one channel node |
| SinglePosts.TwitterUserNodes | src/commonTest/kotlin/moe/tlaster/farcaster/parser/tree/TreeBuilderTest.kt:40-53 | `test.twitter` parses to one custom-user node |
| SinglePosts.LensterUserNodes | src/commonTest/kotlin/moe/tlaster/farcaster/parser/tree/TreeBuilderTest.kt:55-68 | `test.lens` parses to one custom-user node |
| SinglePosts.UrlNodes | src/commonTest/kotlin/moe/tlaster/farcaster/parser/tree/TreeBuilderTest.kt:70-83 | `https://test.com` parses to one URL node |
| SinglePosts.CashNodes | src/commonTest/kotlin/moe/tlaster/farcaster/parser/tree/TreeBuilderTest.kt:85-98 | `$TEST` parses to one cash node |

## Left out

- The reader (`Reader`, `StringReader`, `eof`) is not part of this model. `Readers` reconstructs it from its uses: a text followed by one end-of-input symbol that no character can equal.
- Case-insensitive matching (`isFollowedBy(…, ignoreCase = true)` and `equals(…, ignoreCase = true)`) folds ASCII letters only. Kotlin's full Unicode case folding is not modelled.
- Strings are sequences of Dafny `char`. Kotlin's UTF-16 code units and surrogate pairs are not modelled separately.
- `DomainList` is a global table, and its source is not part of this model. The tokenizer takes it as a constructor parameter instead.
- `customUserSuffix` is stored but never read, as in the source. `DotState` tests only `twitter` and `lens`.
- `TwitterUser` and `LensterUser` (written by `DotState`) and `TwitterUserNode` and `LensterUserNode` (expected by the tests) are not declared in the source's enumeration or node types. The model writes `CustomUser` and expects `CustomUserNode`.
- TreeBuilding.Build: requires that the reader's sentinel slot be Eof. `StringReader` is not part of this model, so what `readAt` returns for a range reaching past the text is unknown, and an array ending in another category would ask for such a range. `Tokenizer.parse` always ends the array with Eof.
- The character sets `asciiAlphanumericUnderscoreDashPlus`, the hex-digit sets, `NULL` and `asciiAlphanumericAndEmpty` (State.kt:9-13, 17) are unused in the source and are left out.
- The tokenizer tests `testMixed` to `testMixed5` are not restated. Only the mixed post of the tree-builder tests is followed end to end.
