/**
 * The GitHub API as the labeler sees it: the issue and pull-request records it reads, and a
 * client whose answers are fixed in advance and whose calls are recorded in a ghost trace.
 * Each call happens at most once per run, so one fixed answer per call covers every answer
 * the service could give.
 */
module GitHub {
  import opened Wrappers

  /** An issue: its text and the names of the labels already on it. */
  datatype Issue = Issue(title: string, body: string, labels: seq<string>)

  /** A pull request; `baseRef` is nil when the base branch or its ref is missing. */
  datatype PullRequest = PullRequest(title: string, body: string, labels: seq<string>, baseRef: Option<string>)

  /** The outcome of downloading the configuration file and reading it to the end. */
  datatype Download = Contents(content: string) | DownloadFailed(error: string) | ReadFailed(error: string)

  datatype Call =
    | DownloadContents(owner: string, repo: string, path: string)
    | GetIssue(owner: string, repo: string, number: int)
    | GetPullRequest(owner: string, repo: string, number: int)
    | AddLabelsToIssue(owner: string, repo: string, number: int, labels: set<string>)
    | CreateComment(owner: string, repo: string, number: int, body: string)

  class Client {
    ghost var calls: seq<Call>
    const download: Download
    const issue: Result<Issue>
    const pullRequest: Result<PullRequest>
    /** The labels the service reports back after adding, or its error. */
    const added: Result<seq<string>>
    /** The error creating a comment yields, if any. */
    const commentError: Option<string>

    constructor (download: Download, issue: Result<Issue>, pullRequest: Result<PullRequest>,
                 added: Result<seq<string>>, commentError: Option<string>)
      ensures calls == []
      ensures this.download == download && this.issue == issue && this.pullRequest == pullRequest
      ensures this.added == added && this.commentError == commentError
    {
      calls := [];
      this.download := download;
      this.issue := issue;
      this.pullRequest := pullRequest;
      this.added := added;
      this.commentError := commentError;
    }

    method DownloadContents(owner: string, repo: string, path: string) returns (r: Download)
      modifies this
      ensures calls == old(calls) + [Call.DownloadContents(owner, repo, path)] && r == download
    {
      calls := calls + [Call.DownloadContents(owner, repo, path)];
      r := download;
    }

    method GetIssue(owner: string, repo: string, number: int) returns (r: Result<Issue>)
      modifies this
      ensures calls == old(calls) + [Call.GetIssue(owner, repo, number)] && r == issue
    {
      calls := calls + [Call.GetIssue(owner, repo, number)];
      r := issue;
    }

    method GetPullRequest(owner: string, repo: string, number: int) returns (r: Result<PullRequest>)
      modifies this
      ensures calls == old(calls) + [Call.GetPullRequest(owner, repo, number)] && r == pullRequest
    {
      calls := calls + [Call.GetPullRequest(owner, repo, number)];
      r := pullRequest;
    }

    method AddLabelsToIssue(owner: string, repo: string, number: int, labels: set<string>) returns (r: Result<seq<string>>)
      modifies this
      ensures calls == old(calls) + [Call.AddLabelsToIssue(owner, repo, number, labels)] && r == added
    {
      calls := calls + [Call.AddLabelsToIssue(owner, repo, number, labels)];
      r := added;
    }

    method CreateComment(owner: string, repo: string, number: int, body: string) returns (err: Option<string>)
      modifies this
      ensures calls == old(calls) + [Call.CreateComment(owner, repo, number, body)] && err == commentError
    {
      calls := calls + [Call.CreateComment(owner, repo, number, body)];
      err := commentError;
    }
  }
}
