/**
 * The labeler's orchestration: precondition checks, resolving the configuration (Full first,
 * then Simple), fetching the issue or pull request, filtering matched labels by target
 * branch, applying them when one is new, and posting the configured comment.
 */
module Labeling {
  import opened Wrappers
  import opened Patterns
  import opened FullSchema
  import opened SimpleSchema
  import opened GitHub

  const IssuesEventName := "issues"
  const PullRequestEventName := "pull_request"
  const PullRequestTargetEventName := "pull_request_target"

  const OwnerInvalid := "owner is invalid"
  const RepoInvalid := "repo is invalid"
  const EventInvalid := "event must be one of [ issues , pull_request , pull_request_target ]"
  const EmptyConfigPath := "the labeler configuration path can not be empty"
  const CommentMarker := "<!-- Labeler (https://github.com/jimschubert/labeler) -->\n"

  /** The number of bytes a character takes in UTF-8. */
  function RuneLength(c: char): nat
  {
    if c as int < 0x80 then 1
    else if c as int < 0x800 then 2
    else if c as int < 0x10000 then 3
    else 4
  }

  /** Go's `len` of a string: its length in UTF-8 bytes, between one and four per character. */
  function ByteLength(s: string): (n: nat)
    ensures |s| <= n <= 4 * |s|
  {
    if |s| == 0 then 0 else ByteLength(s[..|s| - 1]) + RuneLength(s[|s| - 1])
  }

  /** A name is at most one byte long exactly when it is empty or a single ASCII character. */
  lemma AtMostOneByte(s: string)
    ensures ByteLength(s) <= 1 <==> |s| == 0 || (|s| == 1 && s[0] as int < 0x80)
  {
    if |s| == 1 {
      assert s[..0] == [];
    }
  }

  /** The checks Execute makes before anything else, in this order, each with its own message. */
  function CheckPreconditions(owner: string, repo: string, event: string): (r: Option<string>)
    ensures r.None? <==> ByteLength(owner) > 1 && ByteLength(repo) > 1
                         && event in {IssuesEventName, PullRequestEventName, PullRequestTargetEventName}
    ensures r == Some(OwnerInvalid) <==> ByteLength(owner) <= 1
    ensures r == Some(RepoInvalid) <==> ByteLength(owner) > 1 && ByteLength(repo) <= 1
    ensures r == Some(EventInvalid) <==> ByteLength(owner) > 1 && ByteLength(repo) > 1
                                         && event !in {IssuesEventName, PullRequestEventName, PullRequestTargetEventName}
  {
    if ByteLength(owner) <= 1 then Some(OwnerInvalid)
    else if ByteLength(repo) <= 1 then Some(RepoInvalid)
    else if event != IssuesEventName && event != PullRequestEventName && event != PullRequestTargetEventName then Some(EventInvalid)
    else None
  }

  /** Go's `%q` of a string of printable characters without quotes or backslashes. */
  function Quote(s: string): string
  {
    "\"" + s + "\""
  }

  /** The error when neither schema accepts the configuration file; it names the file. */
  function CouldNotParse(path: string): (message: string)
    ensures |message| == |"could not parse \""| + |path| + 1
    ensures message[..|"could not parse \""|] == "could not parse \""
    ensures message[|"could not parse \""|..|message| - 1] == path
    ensures message[|message| - 1] == '"'
  {
    "could not parse " + Quote(path)
  }

  /** `r` is a label set configuration `c` can produce for `texts`. */
  ghost predicate Yields(c: Config, m: Matcher, texts: seq<string>, r: map<string, Label>)
  {
    match c
    case Full(f) => Possible(f, m, Join(texts), r)
    case Simple(s) => r == s.Selected(m, Join(texts))
  }

  /** The configuration in use: one of the two schemas, told apart by trial decoding. */
  datatype Config = Full(full: FullConfig) | Simple(simple: SimpleConfig)
  {
    /** The call through the configuration interface, dispatched on the schema. */
    method LabelsFor(m: Matcher, texts: seq<string>) returns (r: map<string, Label>)
      ensures Yields(this, m, texts, r)
    {
      match this
      case Full(f) =>
        r := f.LabelsFor(m, texts);
      case Simple(s) =>
        r := s.LabelsFor(m, texts);
    }
  }

  /**
   * The Full schema is tried first; the Simple schema only when the Full one fails; when
   * both fail the error names the path.
   */
  function ParseConfig(fullYaml: Decoder<FullConfig>, simpleYaml: Decoder<SimpleConfig>, b: string, path: string): (r: Result<Config>)
    ensures r.Ok? && r.value.Full? <==> FullConfig.FromBytes(fullYaml, b).Ok?
    ensures r.Ok? && r.value.Full? ==> r.value.full == FullConfig.FromBytes(fullYaml, b).value
    ensures r.Ok? && r.value.Simple? <==> FullConfig.FromBytes(fullYaml, b).Err? && SimpleConfig.FromBytes(simpleYaml, b).Ok?
    ensures r.Ok? && r.value.Simple? ==> r.value.simple == SimpleConfig.FromBytes(simpleYaml, b).value
    ensures r.Err? <==> FullConfig.FromBytes(fullYaml, b).Err? && SimpleConfig.FromBytes(simpleYaml, b).Err?
    ensures r.Err? ==> r.error == CouldNotParse(path)
  {
    match FullConfig.FromBytes(fullYaml, b)
    case Ok(f) => Ok(Full(f))
    case Err(_) =>
      match SimpleConfig.FromBytes(simpleYaml, b)
      case Ok(s) => Ok(Simple(s))
      case Err(_) => Err(CouldNotParse(path))
  }

  /**
   * Inline event data is decoded first as a webhook event wrapping the issue or pull request
   * (whose inner object may be missing: None), and only if that fails as the bare object;
   * the bare decoding's error is the one returned.
   */
  function DecodePayload<T>(wrapped: Decoder<Option<T>>, bare: Decoder<Option<T>>, data: string): (r: Result<Option<T>>)
    ensures wrapped(data).Ok? ==> r == wrapped(data)
    ensures wrapped(data).Err? ==> r == bare(data)
  {
    if wrapped(data).Ok? then wrapped(data) else bare(data)
  }

  /** The external engines the labeler relies on: regular expressions, YAML and JSON decoding. */
  datatype Engines = Engines(
    matches: Matcher,
    fullYaml: Decoder<FullConfig>,
    simpleYaml: Decoder<SimpleConfig>,
    issuesEventJson: Decoder<Option<Issue>>,
    issueJson: Decoder<Option<Issue>>,
    pullRequestEventJson: Decoder<Option<PullRequest>>,
    pullRequestJson: Decoder<Option<PullRequest>>)

  /** The event being labelled. */
  datatype Event = IssueEvent(issue: Issue) | PullRequestEvent(pr: PullRequest)
  {
    function Title(): string
    {
      match this
      case IssueEvent(i) => i.title
      case PullRequestEvent(p) => p.title
    }

    function Body(): string
    {
      match this
      case IssueEvent(i) => i.body
      case PullRequestEvent(p) => p.body
    }
  }

  /** The base ref of a pull request that has one; empty for issues. */
  function TargetBranch(e: Event): (branch: string)
    ensures branch == if e.PullRequestEvent? && e.pr.baseRef.Some? then e.pr.baseRef.value else ""
  {
    match e
    case IssueEvent(_) => ""
    case PullRequestEvent(pr) => if pr.baseRef.Some? then pr.baseRef.value else ""
  }

  /**
   * A rule applies on the target branch when it names no branch, or when there is a target
   * branch and one of its branch patterns matches it.
   */
  predicate OnBranch(rule: Label, m: Matcher, target: string)
  {
    |rule.branches| == 0 || (target != "" && AnyMatch(m, rule.branches, target))
  }

  function BranchFiltered(labels: map<string, Label>, m: Matcher, target: string): map<string, Label>
  {
    map k | k in labels && OnBranch(labels[k], m, target) :: labels[k]
  }

  /** The branch filter over the matched labels. */
  method FilterByBranch(labels: map<string, Label>, m: Matcher, target: string) returns (filtered: map<string, Label>)
    ensures forall k :: k in filtered <==> k in labels && OnBranch(labels[k], m, target)
    ensures forall k | k in filtered :: filtered[k] == labels[k]
    ensures filtered == BranchFiltered(labels, m, target)
  {
    filtered := map[];
    var remaining := labels.Keys;
    while remaining != {}
      invariant remaining <= labels.Keys
      invariant filtered == map k | k in BranchFiltered(labels, m, target) && k !in remaining :: labels[k]
      decreases remaining
    {
      var name :| name in remaining;
      var rule := labels[name];
      if |rule.branches| > 0 && target != "" {
        var matched := MatchAny(m, rule.branches, target);
        if matched {
          filtered := filtered[name := rule];
        }
      } else if |rule.branches| == 0 {
        filtered := filtered[name := rule];
      }
      remaining := remaining - {name};
    }
  }

  /** Whether a label of the given name is already on the issue; a nil name never is. */
  method LabelExists(existing: seq<string>, name: Option<string>) returns (found: bool)
    ensures found <==> name.Some? && name.value in existing
  {
    if name.Some? {
      var i := 0;
      while i < |existing|
        invariant 0 <= i <= |existing|
        invariant forall j | 0 <= j < i :: existing[j] != name.value
      {
        if existing[i] == name.value {
          return true;
        }
        i := i + 1;
      }
    }
    return false;
  }

  /** Some label to apply is not on the issue yet. */
  predicate HasNew(names: set<string>, existing: seq<string>)
  {
    exists k | k in names :: k !in existing
  }

  /** "Something is new" is "the labels minus the existing ones is not empty". */
  lemma HasNewIffDifference(names: set<string>, existing: seq<string>)
    ensures HasNew(names, existing) <==> names - (set x | x in existing) != {}
  {
    if HasNew(names, existing) {
      var k :| k in names && k !in existing;
      assert k in names - (set x | x in existing);
    }
  }

  /** The `hasNew` loop of applyLabels: stop at the first label that is not there yet. */
  method AnyNew(filtered: map<string, Label>, existing: seq<string>) returns (hasNew: bool)
    ensures hasNew <==> HasNew(filtered.Keys, existing)
  {
    hasNew := false;
    var remaining := filtered.Keys;
    while remaining != {}
      invariant remaining <= filtered.Keys
      invariant hasNew <==> exists k | k in filtered && k !in remaining :: k !in existing
      decreases remaining
    {
      if hasNew {
        break;
      }
      var name :| name in remaining;
      remaining := remaining - {name};
      var present := LabelExists(existing, Some(name));
      hasNew := !present;
    }
  }

  /** The comment body: the marker line, then the configured text unchanged. */
  function NewComment(comment: string): (body: string)
    ensures |body| == |CommentMarker| + |comment|
    ensures body[..|CommentMarker|] == CommentMarker && body[|CommentMarker|..] == comment
  {
    CommentMarker + comment
  }

  /** A comment is posted only when there is one and it is not empty. */
  predicate WillPost(comment: Option<string>)
  {
    comment.Some? && |comment.value| > 0
  }

  /**
   * The comment for the event type: a Full configuration picks its issues or pull-request
   * comment (nil without a comments block); a Simple one has a single comment for both.
   */
  function SelectComment(c: Config, forIssue: bool): (comment: Option<string>)
    ensures c.Full? && c.full.comments.None? ==> comment.None?
    ensures c.Full? && c.full.comments.Some? ==>
              comment == if forIssue then c.full.comments.value.issues else c.full.comments.value.pullRequests
    ensures c.Simple? ==> comment == Some(c.simple.comment)
  {
    match c
    case Full(f) =>
      if f.comments.None? then None
      else if forIssue then f.comments.value.issues
      else f.comments.value.pullRequests
    case Simple(s) => Some(s.comment)
  }

  /**
   * The labels applyLabels sends: every label that survives the branch filter, but only when
   * at least one of them is not on the issue yet.
   */
  function LabelsToSend(matched: map<string, Label>, m: Matcher, target: string, existing: seq<string>): (sent: Option<set<string>>)
    ensures sent.Some? <==> HasNew(BranchFiltered(matched, m, target).Keys, existing)
    ensures sent.Some? ==> sent.value == BranchFiltered(matched, m, target).Keys
  {
    var filtered := BranchFiltered(matched, m, target);
    if HasNew(filtered.Keys, existing) then Some(filtered.Keys) else None
  }

  /** How a run ends: normally, with an error, or with a nil dereference. */
  datatype Outcome = Completed | Failed(error: string) | Panicked(reason: string)

  /** The parent context of the API calls: the background one or one the caller supplied. */
  datatype Context = Background | Supplied(id: nat)

  class Labeler {
    var Owner: string
    var Repo: string
    var Event: string
    var Data: Option<string>
    var ID: int
    var context: Context
    const client: Client
    const engines: Engines
    var config: Option<Config>
    var configPath: string

    constructor (owner: string, repo: string, event: string, data: Option<string>, id: int,
                 context: Context, client: Client, engines: Engines, configPath: string)
      ensures Owner == owner && Repo == repo && Event == event && Data == data && ID == id
      ensures this.context == context && this.client == client && this.engines == engines
      ensures this.configPath == configPath && config.None?
    {
      Owner, Repo, Event, Data, ID := owner, repo, event, data, id;
      this.context := context;
      this.client := client;
      this.engines := engines;
      this.configPath := configPath;
      config := None;
    }

    /** What resolving the configuration yields for the client's answer. */
    ghost function Resolved(): Result<Config>
      reads this
    {
      match client.download
      case DownloadFailed(e) => Err(e)
      case ReadFailed(e) => Err("error reading " + Quote(configPath) + ": " + e)
      case Contents(b) => ParseConfig(engines.fullYaml, engines.simpleYaml, b, configPath)
    }

    /** retrieveConfig: refuses an empty path before any call, then downloads once and parses. */
    method RetrieveConfig() returns (r: Result<Config>)
      modifies client
      ensures configPath == "" ==> r == Err(EmptyConfigPath) && client.calls == old(client.calls)
      ensures configPath != "" ==> client.calls == old(client.calls) + [Call.DownloadContents(Owner, Repo, configPath)]
      ensures configPath != "" ==> r == Resolved()
    {
      if configPath == "" {
        return Err(EmptyConfigPath);
      }
      var download := client.DownloadContents(Owner, Repo, configPath);
      match download
      case DownloadFailed(e) =>
        r := Err(e);
      case ReadFailed(e) =>
        r := Err("error reading " + Quote(configPath) + ": " + e);
      case Contents(b) =>
        r := ParseConfig(engines.fullYaml, engines.simpleYaml, b, configPath);
    }

    /** The issue getIssue obtains: from the inline data when there is some, else from the API. */
    ghost function FetchedIssue(): Result<Option<Issue>>
      reads this
    {
      if Data.Some? then DecodePayload(engines.issuesEventJson, engines.issueJson, Data.value)
      else if client.issue.Ok? then Ok(Some(client.issue.value))
      else Err(client.issue.error)
    }

    /** The pull request getPullRequest obtains. */
    ghost function FetchedPullRequest(): Result<Option<PullRequest>>
      reads this
    {
      if Data.Some? then DecodePayload(engines.pullRequestEventJson, engines.pullRequestJson, Data.value)
      else if client.pullRequest.Ok? then Ok(Some(client.pullRequest.value))
      else Err(client.pullRequest.error)
    }

    /** getIssue: inline data makes no call at all; otherwise the API is asked once. */
    method GetIssue() returns (r: Result<Option<Issue>>)
      modifies client
      ensures r == FetchedIssue()
      ensures client.calls == old(client.calls) + (if Data.Some? then [] else [Call.GetIssue(Owner, Repo, ID)])
    {
      if Data.Some? {
        r := DecodePayload(engines.issuesEventJson, engines.issueJson, Data.value);
      } else {
        var fetched := client.GetIssue(Owner, Repo, ID);
        if fetched.Err? {
          return Err(fetched.error);
        }
        r := Ok(Some(fetched.value));
      }
    }

    /** getPullRequest: inline data makes no call at all; otherwise the API is asked once. */
    method GetPullRequest() returns (r: Result<Option<PullRequest>>)
      modifies client
      ensures r == FetchedPullRequest()
      ensures client.calls == old(client.calls) + (if Data.Some? then [] else [Call.GetPullRequest(Owner, Repo, ID)])
    {
      if Data.Some? {
        r := DecodePayload(engines.pullRequestEventJson, engines.pullRequestJson, Data.value);
      } else {
        var fetched := client.GetPullRequest(Owner, Repo, ID);
        if fetched.Err? {
          return Err(fetched.error);
        }
        r := Ok(Some(fetched.value));
      }
    }

    /** The count applyLabels reports after asking to add labels: best effort, an error counts 0. */
    ghost function AddedCount(): nat
    {
      if client.added.Ok? then |client.added.value| else 0
    }

    /** The fetch call getIssue makes: none when inline data is present. */
    ghost function IssueFetch(): seq<Call>
      reads this
    {
      if Data.Some? then [] else [Call.GetIssue(Owner, Repo, ID)]
    }

    /** The fetch call getPullRequest makes: none when inline data is present. */
    ghost function PullRequestFetch(): seq<Call>
      reads this
    {
      if Data.Some? then [] else [Call.GetPullRequest(Owner, Repo, ID)]
    }

    /** The label call for the labels sent, if any were. */
    ghost function AddCall(sent: Option<set<string>>): seq<Call>
      reads this
    {
      if sent.Some? then [Call.AddLabelsToIssue(Owner, Repo, ID, sent.value)] else []
    }

    /** The comment call for the body posted, if one was. */
    ghost function CommentCall(posted: Option<string>): seq<Call>
      reads this
    {
      if posted.Some? then [Call.CreateComment(Owner, Repo, ID, posted.value)] else []
    }

    /**
     * applyLabels: matches title and body, filters by target branch, and when at least one
     * filtered label is not on the issue yet sends ALL filtered labels in one call; returns
     * how many labels the service reports, or 0 when nothing is new or the call fails.
     */
    method ApplyLabels(e: Event, existing: seq<string>) returns (count: nat, ghost matched: map<string, Label>, ghost sent: Option<set<string>>)
      requires config.Some?
      modifies client
      ensures Yields(config.value, engines.matches, [e.Title(), e.Body()], matched)
      ensures sent == LabelsToSend(matched, engines.matches, TargetBranch(e), existing)
      ensures client.calls == old(client.calls) + AddCall(sent)
      ensures count == if sent.Some? then AddedCount() else 0
    {
      var targetBranch := TargetBranch(e);
      var labels := config.value.LabelsFor(engines.matches, [e.Title(), e.Body()]);
      matched := labels;
      var filtered := FilterByBranch(labels, engines.matches, targetBranch);
      var hasNew := AnyNew(filtered, existing);
      if hasNew {
        sent := Some(filtered.Keys);
        var added := client.AddLabelsToIssue(Owner, Repo, ID, filtered.Keys);
        if added.Err? {
          return 0, matched, sent;
        }
        return |added.value|, matched, sent;
      }
      sent := None;
      return 0, matched, sent;
    }

    /** addComment: posts the marked comment when there is a non-empty one; its error is returned. */
    method AddComment(comment: Option<string>) returns (err: Option<string>, ghost posted: Option<string>)
      modifies client
      ensures posted == if WillPost(comment) then Some(NewComment(comment.value)) else None
      ensures client.calls == old(client.calls) + CommentCall(posted)
      ensures err == if posted.Some? then client.commentError else None
    {
      if comment.Some? && |comment.value| > 0 {
        posted := Some(NewComment(comment.value));
        err := client.CreateComment(Owner, Repo, ID, NewComment(comment.value));
      } else {
        posted := None;
        err := None;
      }
    }

    /**
     * The comment body posted after `sent` labels were sent: only when the service reported
     * some labels added, and only for a non-empty configured comment.
     */
    ghost function CommentToPost(sent: Option<set<string>>, forIssue: bool): Option<string>
      reads this
      requires config.Some?
    {
      var comment := SelectComment(config.value, forIssue);
      if sent.Some? && AddedCount() > 0 && WillPost(comment) then Some(NewComment(comment.value)) else None
    }

    /**
     * What processing an issue does, the calls before it being `before`: at most a fetch, one
     * label call and one comment call, in that order; a fetch error ends the run with that
     * error, a nil issue panics; otherwise the labels this configuration can produce are sent
     * when one is new, and the issues comment is posted only when some labels were added.
     */
    ghost predicate HandledIssue(before: seq<Call>, outcome: Outcome, matched: map<string, Label>,
                                 sent: Option<set<string>>, posted: Option<string>)
      reads this, client
      requires config.Some?
    {
      && client.calls == before + IssueFetch() + AddCall(sent) + CommentCall(posted)
      && (FetchedIssue().Err? ==> outcome == Failed(FetchedIssue().error) && sent.None? && posted.None?)
      && (FetchedIssue() == Ok(None) ==> outcome.Panicked? && sent.None? && posted.None?)
      && (FetchedIssue().Ok? && FetchedIssue().value.Some? ==>
            var issue := FetchedIssue().value.value;
            && Yields(config.value, engines.matches, [issue.title, issue.body], matched)
            && sent == LabelsToSend(matched, engines.matches, "", issue.labels)
            && posted == CommentToPost(sent, true)
            && outcome == if posted.Some? && client.commentError.Some? then Failed(client.commentError.value) else Completed)
    }

    /** What processing a pull request does: as for an issue, filtered by the base ref. */
    ghost predicate HandledPullRequest(before: seq<Call>, outcome: Outcome, matched: map<string, Label>,
                                       sent: Option<set<string>>, posted: Option<string>)
      reads this, client
      requires config.Some?
    {
      && client.calls == before + PullRequestFetch() + AddCall(sent) + CommentCall(posted)
      && (FetchedPullRequest().Err? ==> outcome == Failed(FetchedPullRequest().error) && sent.None? && posted.None?)
      && (FetchedPullRequest() == Ok(None) ==> outcome.Panicked? && sent.None? && posted.None?)
      && (FetchedPullRequest().Ok? && FetchedPullRequest().value.Some? ==>
            var pr := FetchedPullRequest().value.value;
            && Yields(config.value, engines.matches, [pr.title, pr.body], matched)
            && sent == LabelsToSend(matched, engines.matches, TargetBranch(PullRequestEvent(pr)), pr.labels)
            && posted == CommentToPost(sent, false)
            && outcome == if posted.Some? && client.commentError.Some? then Failed(client.commentError.value) else Completed)
    }

    /**
     * processIssue: fetch the issue, apply labels, and when some were applied post the
     * issues comment; a fetch or comment error is returned, a failed label call is not.
     */
    method ProcessIssue() returns (outcome: Outcome, ghost matched: map<string, Label>, ghost sent: Option<set<string>>, ghost posted: Option<string>)
      requires config.Some?
      modifies client
      ensures HandledIssue(old(client.calls), outcome, matched, sent, posted)
    {
      matched, sent, posted := map[], None, None;
      var fetched := GetIssue();
      if fetched.Err? {
        return Failed(fetched.error), matched, sent, posted;
      }
      if fetched.value.None? {
        return Panicked("nil issue"), matched, sent, posted;
      }
      var issue := fetched.value.value;
      var count;
      count, matched, sent := ApplyLabels(IssueEvent(issue), issue.labels);
      outcome := Completed;
      if count > 0 {
        var comment := SelectComment(config.value, true);
        var err;
        err, posted := AddComment(comment);
        if err.Some? {
          outcome := Failed(err.value);
        }
      }
    }

    /**
     * processPullRequest: as processIssue, with the pull request's base ref as target branch
     * and the pull-request comment.
     */
    method ProcessPullRequest() returns (outcome: Outcome, ghost matched: map<string, Label>, ghost sent: Option<set<string>>, ghost posted: Option<string>)
      requires config.Some?
      modifies client
      ensures HandledPullRequest(old(client.calls), outcome, matched, sent, posted)
    {
      matched, sent, posted := map[], None, None;
      var fetched := GetPullRequest();
      if fetched.Err? {
        return Failed(fetched.error), matched, sent, posted;
      }
      if fetched.value.None? {
        return Panicked("nil pull request"), matched, sent, posted;
      }
      var pr := fetched.value.value;
      var count;
      count, matched, sent := ApplyLabels(PullRequestEvent(pr), pr.labels);
      outcome := Completed;
      if count > 0 {
        var comment := SelectComment(config.value, false);
        var err;
        err, posted := AddComment(comment);
        if err.Some? {
          outcome := Failed(err.value);
        }
      }
    }

    /**
     * Execute: the precondition checks, then the configuration (one download), then the
     * event's processing. Nothing is called when a check fails or the path is empty; the
     * configuration is kept only when it resolves; a comment is never posted unless labels
     * were sent and some were reported added.
     */
    method Execute() returns (outcome: Outcome, ghost matched: map<string, Label>, ghost sent: Option<set<string>>, ghost posted: Option<string>)
      modifies this`config, client
      ensures CheckPreconditions(Owner, Repo, Event).Some? ==>
                outcome == Failed(CheckPreconditions(Owner, Repo, Event).value)
                && client.calls == old(client.calls) && config == old(config)
      ensures CheckPreconditions(Owner, Repo, Event).None? && configPath == "" ==>
                outcome == Failed(EmptyConfigPath) && client.calls == old(client.calls) && config == old(config)
      ensures CheckPreconditions(Owner, Repo, Event).None? && configPath != "" && Resolved().Err? ==>
                outcome == Failed(Resolved().error) && config == old(config)
                && client.calls == old(client.calls) + [Call.DownloadContents(Owner, Repo, configPath)]
      ensures CheckPreconditions(Owner, Repo, Event).None? && configPath != "" && Resolved().Ok? ==>
                && config == Some(Resolved().value)
                && (Event == IssuesEventName ==>
                      HandledIssue(old(client.calls) + [Call.DownloadContents(Owner, Repo, configPath)], outcome, matched, sent, posted))
                && (Event != IssuesEventName ==>
                      HandledPullRequest(old(client.calls) + [Call.DownloadContents(Owner, Repo, configPath)], outcome, matched, sent, posted))
      ensures posted.Some? ==> sent.Some? && AddedCount() > 0
      ensures outcome.Completed? ==> CheckPreconditions(Owner, Repo, Event).None? && configPath != "" && Resolved().Ok?
    {
      matched, sent, posted := map[], None, None;
      var invalid := CheckPreconditions(Owner, Repo, Event);
      if invalid.Some? {
        return Failed(invalid.value), matched, sent, posted;
      }
      var c := RetrieveConfig();
      if c.Err? {
        return Failed(c.error), matched, sent, posted;
      }
      config := Some(c.value);
      if Event == IssuesEventName {
        outcome, matched, sent, posted := ProcessIssue();
      } else {
        outcome, matched, sent, posted := ProcessPullRequest();
      }
    }
  }
}
