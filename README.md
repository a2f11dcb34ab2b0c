# labeler — a Dafny model of the decision logic

The labeler is a GitHub issue and pull-request auto-labeler. For one issue or pull request it:

- downloads the repository's configuration file;
- decides which labels its title and body call for;
- applies the labels;
- posts a comment when labels were added.

This project models its decision logic and proves properties of it:

- **Configuration schemas** (`full_config.dfy`, `simple_config.dfy`).
  - The Full schema has include, exclude and branch patterns per label, plus an optional comment per event type.
  - The Simple schema maps each label to include patterns, has a separate label-to-branches map, and one comment.
  - Each has `FromBytes`, the check after YAML decoding, and `LabelsFor`. `LabelsFor` joins the texts with one space and matches patterns against the result.
- **Shared pattern helpers** (`patterns.dfy`): `Join`, the "any pattern matches" loop, and the in-order list of matching patterns.
- **The field bitmask** (`fields.dfy`): `FieldFlag`, `Has`, `OrDefault` and `ParseFieldFlags`.
- **The orchestration** (`labeler.dfy`).
  - A `Labeler` class whose `Execute` runs, in order:
    1. the precondition checks;
    2. configuration resolution: one download, the Full schema first, then the Simple one;
    3. fetching the issue or pull request, from inline event data or from the API;
    4. the branch filter;
    5. the "is any label new?" test;
    6. best-effort label application;
    7. the per-event comment with its marker line.
  - The GitHub API is a `Client` class (`github.dfy`). It holds scripted answers and records every call in a ghost trace, so contracts state exactly which calls a run makes and in which order.
- **Construction** (`construct.dfy`).
  - An `Opt` class that option functions mutate.
  - `NewWithOptions`: defaults from the environment, the fixed validation order and its messages, then defaulting of the context, client and configuration path.
  - `New`, which refuses absent event data.

External engines are parameters:

- the regular-expression engine is a `Matcher`, a total predicate on (pattern, text);
- YAML and JSON decoding are `Decoder`s returning `Result`;
- the environment variables are an `Environment` value;
- the default API client and the `skipTokenCheck` switch are arguments of `NewWithOptions`.

Go map iteration order is modelled as a nondeterministic choice (`:|`).

The intended Full-schema evaluation is per label: an excluded label is skipped, and the others are still judged. The code at model/full_config.go:67-69 instead leaves the whole loop at the first excluded label. The model follows the code:

- `FullConfig.LabelsFor` is specified by the walks the loop can take over any map order (`Walk`, `Possible`).
- Its result is always within the per-label reference `Selected`, and equal to it when nothing is excluded.
- `BreakCanDropLabels` exhibits a configuration where a label that is included and never excluded is still dropped.

## Model

| member | source | states |
|---|---|---|
| Patterns.MatchAny | model/full_config.go:59-65 | the pattern loop answers true exactly when some pattern of the list matches the text |
| Patterns.Join | model/full_config.go:55 | the joined text starts with the first text and is as long as all texts plus one separator between each text and the next |
| Patterns.JoinAppend | model/full_config.go:55 | the searchable text is the texts joined with exactly one space: appending a text adds a space and that text |
| Patterns.MatchingPatterns | model/simple_config.go:32-38 | the collected patterns are config patterns that match, every matching pattern is collected, and there are no more of them than configured |
| Patterns.CollectMatching | model/simple_config.go:32-38 | the collecting loop yields exactly the matching patterns in configured order |
| Patterns.MatchingPatternsEmpty | model/simple_config.go:39 | no pattern is collected exactly when none matches |
| Patterns.MatchingPatternsSubsequence | model/simple_config.go:32-38 | the collected patterns keep their configured order (a subsequence of the configured list) |
| Fields.AllFieldFlagsIsBoth | fields.go:20-28 | title is 1, body is 2, all is 3; all has both; title and body are disjoint; the zero flag has no field |
| Fields.Has | fields.go:8-10 | a flag set has a flag only when both are non-zero, and has every non-zero flag all of whose bits it holds |
| Fields.OrDefault | fields.go:13-18 | zero becomes all fields, any non-zero flag is kept, and the result is never zero |
| Fields.OrDefaultIdempotent | fields.go:13-18 | defaulting twice is defaulting once |
| Fields.ParseFieldFlags | fields.go:32-43 | the title bit is set iff "title" is listed and the body bit iff "body" is; no other bit is ever set; the result depends only on the set of names; the empty list gives 0 |
| FullSchema.FullConfig.FromBytes | model/full_config.go:40-51 | success iff decoding succeeds and declares at least one label, keeping the decoded value; decode errors pass through; no labels gives "full config requires labels to be defined" |
| FullSchema.FullConfig.LabelsFor | model/full_config.go:54-80 | the result is what a walk over some map order yields, stopping at the first excluded label; every key is a configured label with its rule unchanged, included and not excluded; with no exclusion the result is the per-label selection |
| FullSchema.PossibleWithinSelected | model/full_config.go:57-78 | under every iteration order the result is within the per-label selection, and equal to it when no label is excluded |
| FullSchema.BreakCanDropLabels | model/full_config.go:67-69 | leaving the loop at an excluded label can drop a label that is included and not excluded; another order keeps it |
| SimpleSchema.SimpleConfig.FromBytes | model/simple_config.go:23-25 | decoding is the only check: a configuration without labels is accepted, value and error pass through |
| SimpleSchema.SimpleConfig.LabelsFor | model/simple_config.go:28-48 | a label is in the result iff one of its patterns matches; its includes are exactly the matching patterns, excludes empty, branches those of the label (empty without an entry) |
| GitHub.Client.DownloadContents | model/rich_client.go:11 | one download call is recorded and the scripted answer returned |
| GitHub.Client.GetIssue | model/rich_client.go:23 | one issue fetch is recorded and the scripted answer returned |
| GitHub.Client.GetPullRequest | model/rich_client.go:27 | one pull-request fetch is recorded and the scripted answer returned |
| GitHub.Client.AddLabelsToIssue | model/rich_client.go:19 | one label call with exactly the given label set is recorded and the scripted answer returned |
| GitHub.Client.CreateComment | model/rich_client.go:15 | one comment call with the given body is recorded and the scripted error returned |
| Labeling.ByteLength | labeler.go:107-110 | Go's string length counts UTF-8 bytes, between one and four per character |
| Labeling.AtMostOneByte | labeler.go:107-112 | a name is rejected as too short exactly when it is empty or one ASCII character |
| Labeling.CheckPreconditions | labeler.go:106-118 | no error iff owner and repo are longer than one byte and the event is issues, pull_request or pull_request_target; each message iff its check is the first to fail |
| Labeling.CouldNotParse | labeler.go:99 | the message is "could not parse " followed by the path in double quotes |
| Labeling.Config.LabelsFor | labeler.go:219 | the configuration interface call yields what the configuration's own schema can yield |
| Labeling.ParseConfig | labeler.go:92-101 | Full is chosen iff Full decoding succeeds; Simple iff Full fails and Simple succeeds; otherwise the error names the path |
| Labeling.DecodePayload | labeler.go:297-309 | inline data is decoded as a wrapping event first and as a bare object only if that fails, whose result is returned |
| Labeling.TargetBranch | labeler.go:214-217 | the target branch is the base ref of a pull request that has one, and empty for an issue or a pull request without one |
| Labeling.FilterByBranch | labeler.go:220-233 | a matched label is kept, unchanged, iff it names no branch, or the target branch is non-empty and one of its branch patterns matches it |
| Labeling.LabelExists | labeler.go:183-192 | true iff the name is present and equals an existing label |
| Labeling.HasNewIffDifference | labeler.go:235-242 | something is new iff the filtered labels minus the existing ones is not empty |
| Labeling.AnyNew | labeler.go:235-242 | the early-exit loop answers whether some filtered label is not on the issue yet |
| Labeling.LabelsToSend | labeler.go:235-252 | labels are sent iff some branch-filtered label is not on the issue yet, and then exactly the branch-filtered labels |
| Labeling.NewComment | labeler.go:208-211 | the body is the marker line followed by the comment unchanged |
| Labeling.SelectComment | labeler.go:130-140 | a Full configuration without a comments block gives no comment, with one the issues comment for an issue and the pull-request comment otherwise (as at labeler.go:162-172); a Simple configuration gives its single comment |
| Labeling.Labeler.constructor | labeler.go:30-40 | the labeler holds the given owner, repo, event, data, id, context, client and path, and no configuration yet |
| Labeling.Labeler.RetrieveConfig | labeler.go:73-104 | an empty path is refused before any call; otherwise exactly one download, then the download or read error, or the Full-then-Simple parse |
| Labeling.Labeler.GetIssue | labeler.go:295-320 | inline data makes no call and is decoded; otherwise one fetch whose error is returned |
| Labeling.Labeler.GetPullRequest | labeler.go:268-293 | inline data makes no call and is decoded; otherwise one fetch whose error is returned |
| Labeling.Labeler.ApplyLabels | labeler.go:213-266 | at most one label call, made iff some branch-filtered label is new, sending all filtered labels; the count is the number reported added, or 0 when nothing is new or the call fails |
| Labeling.Labeler.AddComment | labeler.go:194-206 | a comment is posted iff it is present and non-empty, with the marker prefix; only the post error is returned |
| Labeling.Labeler.ProcessIssue | labeler.go:121-149 | fetch, then at most one label call and one comment call in that order; a fetch error is returned and a nil issue panics; the issues comment is posted only when labels were added; a comment error is returned |
| Labeling.Labeler.ProcessPullRequest | labeler.go:151-181 | as for issues, with the base ref as target branch and the pull-request comment |
| Labeling.Labeler.Execute | labeler.go:43-71 | a precondition error or an empty path ends the run before any call; a configuration error after the single download; otherwise the configuration is stored and the event's processing follows; a comment never comes without labels added |
| Construct.Validate | construct.go:113-142 | the validations in their fixed order: each message iff its check is the first to fail, and no error iff all pass |
| Construct.Defaults | construct.go:100-107 | token, owner, repo and event come from GITHUB_TOKEN, GITHUB_ACTOR, GITHUB_REPO and GITHUB_EVENT_NAME; id -1; no context or client; the defaults alone never validate |
| Construct.OptValues.With | construct.go:31-96 | an option function leaves every option other than its own unchanged; WithContext and WithClient set their option to the given value, nil included |
| Construct.WithSetsOnly | construct.go:31-96 | the value an option function sets is independent of what was there |
| Construct.Untouched | construct.go:109-111 | options that do not name a field leave it as it was |
| Construct.ApplyAll | construct.go:109-111 | the last option function applied decides its own option |
| Construct.ApplyAllAppend | construct.go:109-111 | applying two lists of options in turn is applying their concatenation |
| Construct.LastSetterWins | construct.go:109-111 | the last option function setting a field decides it |
| Construct.IdDefaultKept | construct.go:106 | without WithID the id keeps its default of -1 |
| Construct.OmittedIdFails | construct.go:130-132 | without WithID validation always fails |
| Construct.Opt.constructor | construct.go:101-107 | the option struct starts from the given values |
| Construct.Opt.Apply | construct.go:29-96 | calling an option function updates the struct exactly as the option says |
| Construct.NewWithOptions | construct.go:99-166 | options are applied in order over the defaults; the error is the validation's; on success the labeler holds the final owner, repo, event and id, data only when non-empty, the path or ".github/labeler.yml", the context or the background one, and the client or the default one |
| Construct.New | construct.go:169-180 | absent data is refused with its own message before anything is built; otherwise the given owner, repo, event and id, the data only when non-empty, the default path, the background context, the default client, and no configuration |
| Construct.NewOptionsApplied | construct.go:173-179 | New's five options set owner, repo, event, id and data and leave token, context, client and path at their defaults |

## Left out

- YAML and JSON decoding (yaml.v2, encoding/json) are abstract `Decoder` parameters. The model covers only the checks after decoding and the fallback orders: Full then Simple, wrapped event then bare object.
- The regular-expression engine is an abstract `Matcher`. Invalid patterns, which make `regexp.MustCompile` panic, are not modelled.
- `regexp.Match` works on the text's bytes; the model matches on the string.
- model/rich_client.go is a thin pass-through. The client is modelled by the `Client` class with scripted answers. Its answer of nil values when a service is missing is not modelled.
- Timeouts, contexts and logging: the 10-second timeouts and logrus logging are left out, and contexts are abstract values.
- oauth2 and `github.NewClient` construction: the default client is an argument.
- `os.Getenv` reads are the `Environment` argument, and the `skipTokenCheck` global is an argument.
- cmd/main.go and cmd/labeler/root.go (CLI parsing, process exit) are not part of this model.
- Labeling.CouldNotParse: Go's `%q` quoting is modelled as plain double quotes, which is exact only for paths of printable characters without quotes or backslashes.
- Labeling.LabelExists: a GitHub label without a name, which makes the source dereference nil, is not modelled; existing labels are names.
- The order of the labels sent (built from map iteration at labeler.go:248-251) is not modelled: they are a set.
- Go's nil versus empty slices are not told apart: a label without a branch entry has an empty branch list.
- Labeling.Labeler.ProcessIssue and Labeling.Labeler.ProcessPullRequest: a nil issue or pull request from a wrapping event is the `Panicked` outcome, not a crash.
- The `fieldFlag` field, `WithFields`, `FullConfig.Fields` and the "description" alias appear only in tests and CLI code, not in the modelled sources. The field bitmask is modelled on its own, and `applyLabels` always matches title and body.
- The `Enable` switches are decoded but never consulted by the modelled code, so they carry no behaviour.
