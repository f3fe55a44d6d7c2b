# Contract download, decoding, staging and test pipeline

This project models how the challenge server turns a learner's submission
into a test run (`packages/server/utils/contract.ts`):

- **downloadContract** takes the block explorer's reply, accepts it only
  when `message` is `"OK"` and `result[0].SourceCode` is non-empty, and
  decodes `SourceCode` in a fixed order: parse it as JSON and take
  `<contractName>.content`; if that parse throws and the text starts with
  `{`, drop its first and last characters, parse again and take
  `sources["contracts/<name>"].content ?? sources["./contracts/<name>"].content`;
  otherwise take the text as it is. An empty or missing result fails. On
  success the body is written to
  `<root>/../challenges/<challenge>/packages/foundry/contracts/download-<address>.sol`.
- **testChallengeSubmission** runs
  `cd <challenge dir> && CONTRACT_PATH="download-<address>.sol:<symbol>" yarn foundry:test --gas-report`,
  where the symbol is the contract name with its first `.sol` removed. Only
  when the command returns does it issue `rm -f <staged path>` and return
  the captured `stdout` and `stderr`. A thrown error is passed on and the
  file stays.

Layout:

- `wrappers.dfy` (`Wrappers`): `Option` (JavaScript `undefined` is `None`) and `Result` (a thrown error is `Failure`).
- `json.dfy` (`JsonValue`): the values `JSON.parse` yields, optional-chaining member access, truthiness, and the nullishness `??` tests.
- `text.dfy` (`Text`): `indexOf` and `replace` with a string pattern, which removes only the first occurrence.
- `decoding.dfy` (`SourceDecoding`): the reply check and the three-way decoding as functions, with one lemma per branch of the dispatch.
- `staging.dfy` (`Staging`): the path and command strings, and a `Workspace` class that holds the file map and the list of issued shell commands. Its `Download` and `TestAndCleanup` methods update that state. `Submit` runs them in order, as the route handler does.

`JSON.parse` is a parameter `parse: string -> Option<Json>`, where `None` means the call throws. Nothing is assumed about it, so every property holds for any parser. The test command's outcome is a parameter `harness: string -> CommandOutcome` in the same way. The explorer's reply is an input record.

Behaviour of the code worth noting:

- The symbol in the test target loses the first `.sol` anywhere in the
  contract name, not just a trailing suffix. `Text.RemoveSolAfter` shows
  that `"My" + ".sol" + "ution.sol"` becomes `"Myution.sol"`.
- Cleanup does not run when the test command throws.
- A repaired payload whose `sources` lacks both keys fails with the
  "not valid" error (`ContractSourceMissing`). A repaired payload with no
  `sources` at all fails with a TypeError (`SourcesMissing`).
- A successful first parse never falls back to the repaired or flat
  branches, even when the name lookup fails.

## Model

| member | source | states |
|---|---|---|
| `JsonValue.Member` | packages/server/utils/contract.ts:41 | `v?.[key]` finds a value exactly when `v` is an object with that own field, and it is that field's value |
| `JsonValue.ContentOf` | packages/server/utils/contract.ts:48-51 | `v?.[key]?.content` finds a value exactly when `v` has the field `key` and that field is an object with a `content` field, and the value is that `content` |
| `JsonValue.Truthy` | packages/server/utils/contract.ts:58 | `undefined` and `null` are falsy, and a string is truthy exactly when it is non-empty |
| `JsonValue.Nullish` | packages/server/utils/contract.ts:47-51 | a nullish value is falsy, and every optional-chaining lookup on it gives `undefined` |
| `SourceDecoding.StartsWithBrace` | packages/server/utils/contract.ts:43 | the test holds exactly when the one-character slice at the start is `{` |
| `SourceDecoding.SourcesContent` | packages/server/utils/contract.ts:47-51 | it throws (SourcesMissing) exactly when the repaired value is not null and its `sources` is nullish; when it does not throw, it yields `sources[key].content` (present means found); an empty string entry is found as the empty string, not as `undefined` |
| `SourceDecoding.Resolve` | packages/server/utils/contract.ts:38-56 | a successful first parse resolves to `parsed[name].content`; unparsable brace-free text resolves to itself; on the brace branch a failing re-parse gives RepairedJsonInvalid; after a successful re-parse the only failure is SourcesMissing, and it happens exactly when the repaired value is not null and has no `sources`; on the repaired branch the `contracts/` entry wins unless it is nullish, and then the `./contracts/` entry is used |
| `Staging.ChallengeDir` | packages/server/utils/contract.ts:63 | the challenge directory is the root, then `/../challenges/`, then the challenge's name, with nothing added or dropped |
| `Staging.ContractsDir` | packages/server/utils/contract.ts:64 | the contracts directory is the challenge directory followed by `/packages/foundry/contracts` |
| `Staging.StagedFileName` | packages/server/utils/contract.ts:64 | the file name is `download-`, the address, and `.sol`; it holds no `/` or `:` unless the address does |
| `Staging.StagedPath` | packages/server/utils/contract.ts:63-64 | the path is the challenge's contracts directory, a `/`, and `download-<address>.sol` |
| `Staging.TestTarget` | packages/server/utils/contract.ts:83-84 | the target is the staged file's name, a `:`, and the contract name with its first `.sol` removed |
| `Staging.TestCommand` | packages/server/utils/contract.ts:85 | the command changes into the challenge's directory, sets `CONTRACT_PATH` to exactly the test target, and runs `yarn foundry:test --gas-report` |
| `Staging.Workspace.Submit` | packages/server/server.ts:67-69 | a failed download leaves files and commands unchanged; after a test run that returns, the files are as before minus the staged path; after a thrown test, the staged file stays with the decoded body |
| `Text.IndexOf` | packages/server/utils/contract.ts:83 | the result is -1 exactly when the pattern occurs nowhere; otherwise it is an occurrence with none before it |
| `Text.IndexOfFirst` | packages/server/utils/contract.ts:83 | an occurrence with no earlier occurrence is the index found |
| `Text.RemoveFirst` | packages/server/utils/contract.ts:83 | `replace(".sol", "")` leaves a string with no occurrence unchanged and otherwise shortens it by the pattern's length |
| `Text.RemoveFirstAt` | packages/server/utils/contract.ts:83 | the cut is made at the first occurrence |
| `Text.RemoveSolAfter` | packages/server/utils/contract.ts:83 | for a base with no ".sol", `base + ".sol" + rest` becomes `base + rest`; with an empty `rest` the symbol is the name without its extension |
| `SourceDecoding.Repair` | packages/server/utils/contract.ts:43-46 | the repaired text is the source without its first and last characters: wrapping it in those two characters gives the source back |
| `SourceDecoding.RepairUnwraps` | packages/server/utils/contract.ts:45-46 | repairing `{` + t + `}` gives back t |
| `SourceDecoding.CheckContent` | packages/server/utils/contract.ts:58-65 | only a non-empty string is accepted, and it is returned as is; every falsy value fails with the "not valid" error |
| `SourceDecoding.Normalize` | packages/server/utils/contract.ts:38-62 | a result is never empty and comes from the named entry of the parse, from one of the two `sources` entries of the repaired parse, or is the unparsable, brace-free text itself; a successful parse or a text without a leading brace can fail only for lack of content |
| `SourceDecoding.Fetch` | packages/server/utils/contract.ts:21-62 | a reply whose message is not "OK" fails with NotOk; a missing or empty SourceCode fails with SourceCodeMissing; an "OK" reply with non-empty source code gives exactly `Normalize`'s result; a success is non-empty |
| `SourceDecoding.ParsedNeverFallsBack` | packages/server/utils/contract.ts:38-42 | when the source parses, the result depends on that parse alone |
| `SourceDecoding.ValidJsonYieldsContent` | packages/server/utils/contract.ts:39-41 | valid JSON with `<name>.content` a non-empty string yields that string |
| `SourceDecoding.ValidJsonWithoutEntryFails` | packages/server/utils/contract.ts:40-62 | valid JSON that is not an object or lacks the name fails with the "not valid" error |
| `SourceDecoding.RepairedYieldsContractsEntry` | packages/server/utils/contract.ts:43-51 | with doubled braces, for a repaired object with any other fields, a non-empty `sources["contracts/<name>"].content` is the result |
| `SourceDecoding.RepairedFallsBackToDotPath` | packages/server/utils/contract.ts:47-51 | when the first entry is null or absent, `sources["./contracts/<name>"].content` is the result |
| `SourceDecoding.RepairedEmptyEntryDoesNotFallBack` | packages/server/utils/contract.ts:47-62 | an empty first entry is kept (not nullish) and fails, whatever the second entry holds |
| `SourceDecoding.RepairedWithoutSourcesFails` | packages/server/utils/contract.ts:46-48 | a non-null repaired value without `sources` fails with the TypeError |
| `SourceDecoding.BracedGarbageFails` | packages/server/utils/contract.ts:43-46 | text that starts with `{` and parses neither as it is nor without its first and last characters fails with RepairedJsonInvalid |
| `SourceDecoding.FlatSourceIsVerbatim` | packages/server/utils/contract.ts:52-55 | unparsable non-empty text without a leading brace is returned unchanged |
| `Staging.RemoveCommand` | packages/server/utils/contract.ts:87 | the removal command names exactly the staged path the download wrote |
| `Staging.StagedPathsDistinct` | packages/server/utils/contract.ts:63-64 | two addresses submitted to the same challenge never share a staged path |
| `Staging.TargetSplitsAtColon` | packages/server/utils/contract.ts:83-84 | for an address without ':', the target's first ':' separates the staged file's name from the contract symbol |
| `Staging.StageThenRemove` | packages/server/utils/contract.ts:63-88 | writing and then removing the staged file leaves every other path unchanged; when nothing was at that path before, the files are as before |
| `Staging.Workspace.Download` | packages/server/utils/contract.ts:10-71 | succeeds exactly when `Fetch` does and the contracts directory exists; then the only change is the staged path, which holds the decoded body; on failure no file changes and the error is Fetch's or DirectoryMissing |
| `Staging.Workspace.TestAndCleanup` | packages/server/utils/contract.ts:77-94 | issues the test command; if it returns, issues `rm -f`, removes the staged path only and returns the captured streams; if it throws, no file changes, nothing else is issued and the error is passed on |

## Left out

- The HTTP request to the explorer and the URL and API-key assembly are network I/O. The reply is an input record.
- The JSON grammar of `JSON.parse` belongs to a library and is a parameter. JSON numbers are reals, so `-0` is not told apart from `0`.
- Member access finds only an object's own fields. An array indexed by a decimal key such as `"0"`, or inherited properties, are not modelled. A contract file name is neither.
- Shell execution is modelled as the outcome parameter. The `rm -f` is issued without being awaited: the model deletes the file before returning and assumes the removal succeeds. A failing `rm` would be an unhandled rejection.
- `writeFileSync` failures are modelled only as a missing contracts directory. Non-string truthy content is rejected, as current Node versions do. Path normalisation of `..` is not modelled, so paths are compared as strings.
- Console logging carries no behaviour.
- Shell word splitting, globbing and expansion are not modelled. The test and removal commands put the challenge name and the address into the shell unquoted, and the contract name inside double quotes, where `$`, backticks, `\` and `"` are still interpreted. The modelled deletion of exactly the staged path, and `CONTRACT_PATH` being exactly the test target, match the shell only when these values contain no whitespace, glob, quote or expansion characters. The hex addresses and slug names that validation supplies before these calls are such values. An address of `*`, for example, would make the real `rm -f` delete every staged file of the challenge.
- Repair: the model drops the first and last characters of the text, but JavaScript drops UTF-16 code units. A `SourceCode` ending in a character outside the Basic Multilingual Plane (an emoji, say) keeps a lone surrogate there, so `JSON.parse` throws (RepairedJsonInvalid). The model instead passes the text without that whole character to `parse`, which can succeed.
- Concurrency is not modelled: each `Workspace` method runs as one atomic step. The staged path depends only on the challenge and the address, and the route handler awaits the download and the test as two separate steps (packages/server/server.ts:68-69). A second request for the same address can overwrite or delete the staged file between them. The un-awaited `rm` can also delete a file that a later submission has just written.
- A `SourceCode` that is present but not a string is modelled as missing. The explorer always sends a string.
- Of `packages/server/server.ts`, only the two awaited calls of the submission route are modelled (`Workspace.Submit`). Routing, validation, the HTTP error mapping and server start-up are not. The route builds the configuration with the key `address`, while the functions read `contractAddress`. The model follows the `SubmissionConfig` type.
- `packages/server/mongodb/models/user.ts` holds schema declarations without behaviour. `packages/server/types.ts` is mirrored by the `SubmissionConfig` datatype.
