/**
 * Building a Labeler: functional options applied in order over defaults taken from the
 * environment, a fixed sequence of validations each with its own message, then defaulting
 * of the context, the client and the configuration path.
 */
module Construct {
  import opened Wrappers
  import opened GitHub
  import opened Labeling

  const BothRequired := "both a github and owner are required"
  const RepoHasSlash := "a repo must be just the repo name. Separate org/repo style into owner and repo options"
  const OwnerRequired := "a github owner (user or org) is required"
  const RepoRequired := "a github repo is required"
  const IdRequired := "the integer id of the issue or pull request is required"
  const TokenRequired := "github token (e.g. GITHUB_TOKEN environment variable) is required"
  const DataRequired := "a JSON string of event data is required"
  const DefaultConfigPath := ".github/labeler.yml"

  /** The environment variables the defaults come from. */
  datatype Environment = Environment(token: string, actor: string, repo: string, eventName: string)

  /** One option function: each sets exactly one option. */
  datatype OptFn =
    | WithToken(tokenValue: string)
    | WithContext(ctxValue: Option<Context>)
    | WithClient(clientValue: Option<Client>)
    | WithOwner(ownerValue: string)
    | WithRepo(repoValue: string)
    | WithEvent(eventValue: string)
    | WithID(idValue: int)
    | WithData(dataValue: string)
    | WithConfigPath(configPathValue: string)

  /** The options by name; a context or client not given, or given as nil, is None. */
  datatype Field = Token | Ctx | ClientField | Owner | Repo | EventField | Id | Data | ConfigPath

  /** The option an option function sets. */
  function Sets(fn: OptFn): Field
  {
    match fn
    case WithToken(_) => Token
    case WithContext(_) => Ctx
    case WithClient(_) => ClientField
    case WithOwner(_) => Owner
    case WithRepo(_) => Repo
    case WithEvent(_) => EventField
    case WithID(_) => Id
    case WithData(_) => Data
    case WithConfigPath(_) => ConfigPath
  }

  /** The option values, as the Opt struct holds them. */
  datatype OptValues = OptValues(token: string, ctx: Option<Context>, client: Option<Client>, owner: string,
                                 repo: string, event: string, id: int, data: string, configPath: string)
  {
    /** The values after applying one option function: the option it names, and no other, changes. */
    function With(fn: OptFn): (r: OptValues)
      ensures forall f: Field | f != Sets(fn) :: r.SameAt(this, f)
      ensures fn.WithContext? ==> r.ctx == fn.ctxValue
      ensures fn.WithClient? ==> r.client == fn.clientValue
    {
      match fn
      case WithToken(v) => this.(token := v)
      case WithContext(v) => this.(ctx := v)
      case WithClient(v) => this.(client := v)
      case WithOwner(v) => this.(owner := v)
      case WithRepo(v) => this.(repo := v)
      case WithEvent(v) => this.(event := v)
      case WithID(v) => this.(id := v)
      case WithData(v) => this.(data := v)
      case WithConfigPath(v) => this.(configPath := v)
    }

    /** The two values hold the same option `f`. */
    predicate SameAt(other: OptValues, f: Field)
    {
      match f
      case Token => token == other.token
      case Ctx => ctx == other.ctx
      case ClientField => client == other.client
      case Owner => owner == other.owner
      case Repo => repo == other.repo
      case EventField => event == other.event
      case Id => id == other.id
      case Data => data == other.data
      case ConfigPath => configPath == other.configPath
    }
  }

  /**
   * The defaults: token, owner, repo and event from the environment, id -1, the rest empty;
   * the defaults alone never pass validation.
   */
  function Defaults(env: Environment): (r: OptValues)
    ensures r.token == env.token && r.owner == env.actor && r.repo == env.repo && r.event == env.eventName
    ensures r.id == -1 && r.ctx.None? && r.client.None? && r.data == "" && r.configPath == ""
    ensures forall skipTokenCheck: bool :: Validate(r, skipTokenCheck).Some?
  {
    OptValues(env.token, None, None, env.actor, env.repo, env.eventName, -1, "", "")
  }

  /** The option functions applied in argument order: the last one decides its option. */
  function ApplyAll(o: OptValues, opts: seq<OptFn>): (r: OptValues)
    ensures |opts| > 0 ==> r.SameAt(o.With(opts[|opts| - 1]), Sets(opts[|opts| - 1]))
  {
    if |opts| == 0 then o else ApplyAll(o, opts[..|opts| - 1]).With(opts[|opts| - 1])
  }

  /**
   * The validations of NewWithOptions, in order, the first failing one giving its message;
   * a token is demanded only when no client was given and the check is not skipped.
   */
  function Validate(o: OptValues, skipTokenCheck: bool): (r: Option<string>)
    ensures r.None? <==> && o.owner != "" && o.repo != "" && '/' !in o.repo && o.id >= 0
                         && (o.client.Some? || o.token != "" || skipTokenCheck)
    ensures r == Some(BothRequired) <==> o.owner == "" && o.repo == ""
    ensures r == Some(RepoHasSlash) <==> '/' in o.repo
    ensures r == Some(OwnerRequired) <==> o.owner == "" && o.repo != "" && '/' !in o.repo
    ensures r == Some(RepoRequired) <==> o.owner != "" && o.repo == ""
    ensures r == Some(IdRequired) <==> o.owner != "" && o.repo != "" && '/' !in o.repo && o.id < 0
    ensures r == Some(TokenRequired) <==> && o.owner != "" && o.repo != "" && '/' !in o.repo && o.id >= 0
                                          && o.client.None? && o.token == "" && !skipTokenCheck
  {
    if o.owner == "" && o.repo == "" then Some(BothRequired)
    else if '/' in o.repo then Some(RepoHasSlash)
    else if o.owner == "" then Some(OwnerRequired)
    else if o.repo == "" then Some(RepoRequired)
    else if o.id < 0 then Some(IdRequired)
    else if o.client.None? && o.token == "" && !skipTokenCheck then Some(TokenRequired)
    else None
  }

  /** The value an option function sets does not depend on what was there before. */
  lemma WithSetsOnly(o: OptValues, other: OptValues, fn: OptFn)
    ensures o.With(fn).SameAt(other.With(fn), Sets(fn))
  {
  }

  /** Option functions that do not set `f` leave it as it was. */
  lemma {:induction false} Untouched(o: OptValues, opts: seq<OptFn>, f: Field)
    requires forall i | 0 <= i < |opts| :: Sets(opts[i]) != f
    ensures ApplyAll(o, opts).SameAt(o, f)
  {
    if |opts| > 0 {
      Untouched(o, opts[..|opts| - 1], f);
    }
  }

  /** Applying `a` then `b` is applying `a + b`. */
  lemma {:induction false} ApplyAllAppend(o: OptValues, a: seq<OptFn>, b: seq<OptFn>)
    ensures ApplyAll(o, a + b) == ApplyAll(ApplyAll(o, a), b)
  {
    if |b| > 0 {
      assert (a + b)[..|a + b| - 1] == a + b[..|b| - 1];
      ApplyAllAppend(o, a, b[..|b| - 1]);
    } else {
      assert a + b == a;
    }
  }

  /**
   * Options apply in argument order: the last function setting an option decides it, whatever
   * came before.
   */
  lemma {:induction false} LastSetterWins(o: OptValues, before: seq<OptFn>, fn: OptFn, after: seq<OptFn>)
    requires forall i | 0 <= i < |after| :: Sets(after[i]) != Sets(fn)
    ensures ApplyAll(o, before + [fn] + after).SameAt(o.With(fn), Sets(fn))
  {
    ApplyAllAppend(o, before + [fn], after);
    Untouched(ApplyAll(o, before + [fn]), after, Sets(fn));
    assert (before + [fn])[..|before + [fn]| - 1] == before;
  }

  /** Without WithID the id keeps its default of -1. */
  lemma {:induction false} IdDefaultKept(env: Environment, opts: seq<OptFn>)
    requires forall i | 0 <= i < |opts| :: !opts[i].WithID?
    ensures ApplyAll(Defaults(env), opts).id == -1
  {
    forall i | 0 <= i < |opts|
      ensures Sets(opts[i]) != Id
    {
    }
    Untouched(Defaults(env), opts, Id);
  }

  /** The id defaults to -1: without WithID construction always fails. */
  lemma {:induction false} OmittedIdFails(env: Environment, opts: seq<OptFn>, skipTokenCheck: bool)
    requires forall i | 0 <= i < |opts| :: !opts[i].WithID?
    ensures Validate(ApplyAll(Defaults(env), opts), skipTokenCheck).Some?
  {
    IdDefaultKept(env, opts);
  }

  /** The Opt struct the option functions mutate. */
  class Opt {
    var token: string
    var ctx: Option<Context>
    var client: Option<Client>
    var owner: string
    var repo: string
    var event: string
    var id: int
    var data: string
    var configPath: string

    function Values(): OptValues
      reads this
    {
      OptValues(token, ctx, client, owner, repo, event, id, data, configPath)
    }

    constructor (o: OptValues)
      ensures Values() == o
    {
      token, ctx, client, owner, repo := o.token, o.ctx, o.client, o.owner, o.repo;
      event, id, data, configPath := o.event, o.id, o.data, o.configPath;
    }

    /** Calling an option function on the struct: it assigns its one field. */
    method Apply(fn: OptFn)
      modifies this
      ensures Values() == old(Values()).With(fn)
    {
      match fn
      case WithToken(v) => token := v;
      case WithContext(v) => ctx := v;
      case WithClient(v) => client := v;
      case WithOwner(v) => owner := v;
      case WithRepo(v) => repo := v;
      case WithEvent(v) => event := v;
      case WithID(v) => id := v;
      case WithData(v) => data := v;
      case WithConfigPath(v) => configPath := v;
    }
  }

  /**
   * NewWithOptions: applies the options over the defaults, validates, then builds the
   * labeler; a missing context becomes the background one, a missing client the default
   * client (`network`), an empty path the default path, and empty data stays absent.
   */
  method NewWithOptions(env: Environment, skipTokenCheck: bool, engines: Engines, network: Client, opts: seq<OptFn>)
    returns (l: Labeler?, err: Option<string>)
    ensures err == Validate(ApplyAll(Defaults(env), opts), skipTokenCheck)
    ensures err.None? <==> l != null
    ensures l != null ==>
              var o := ApplyAll(Defaults(env), opts);
              && fresh(l)
              && l.Owner == o.owner && l.Repo == o.repo && l.Event == o.event && l.ID == o.id
              && l.Data == (if o.data != "" then Some(o.data) else None)
              && l.configPath == (if o.configPath == "" then DefaultConfigPath else o.configPath)
              && l.context == (if o.ctx.Some? then o.ctx.value else Background)
              && l.client == (if o.client.Some? then o.client.value else network)
              && l.engines == engines && l.config.None?
  {
    var options := new Opt(Defaults(env));
    var i := 0;
    while i < |opts|
      invariant 0 <= i <= |opts|
      invariant options.Values() == ApplyAll(Defaults(env), opts[..i])
    {
      assert opts[..i + 1][..i] == opts[..i];
      options.Apply(opts[i]);
      i := i + 1;
    }
    assert opts[..i] == opts;

    err := Validate(options.Values(), skipTokenCheck);
    if err.Some? {
      return null, err;
    }
    if options.ctx.None? {
      options.ctx := Some(Background);
    }
    if options.client.None? {
      options.client := Some(network);
    }
    if options.configPath == "" {
      options.configPath := DefaultConfigPath;
    }
    var data := if options.data != "" then Some(options.data) else None;
    l := new Labeler(options.owner, options.repo, options.event, data, options.id,
                     options.ctx.value, options.client.value, engines, options.configPath);
  }

  /** New: absent event data is refused before anything is built; otherwise the five options. */
  method New(owner: string, repo: string, event: string, id: int, data: Option<string>,
             env: Environment, skipTokenCheck: bool, engines: Engines, network: Client)
    returns (l: Labeler?, err: Option<string>)
    ensures data.None? ==> l == null && err == Some(DataRequired)
    ensures data.Some? ==>
              err == Validate(ApplyAll(Defaults(env), NewOptions(owner, repo, event, id, data.value)), skipTokenCheck)
    ensures err.None? <==> l != null
    ensures l != null ==> && data.Some? && fresh(l)
                          && l.Owner == owner && l.Repo == repo && l.Event == event && l.ID == id
                          && l.Data == (if data.value != "" then data else None)
                          && l.configPath == DefaultConfigPath && l.context == Background
                          && l.client == network && l.engines == engines && l.config.None?
  {
    if data.None? {
      return null, Some(DataRequired);
    }
    NewOptionsApplied(env, owner, repo, event, id, data.value);
    l, err := NewWithOptions(env, skipTokenCheck, engines, network, NewOptions(owner, repo, event, id, data.value));
  }

  /** The options New passes on. */
  function NewOptions(owner: string, repo: string, event: string, id: int, data: string): seq<OptFn>
  {
    [WithOwner(owner), WithRepo(repo), WithEvent(event), WithID(id), WithData(data)]
  }

  /** New's options override every default they name; the path and context keep theirs. */
  lemma NewOptionsApplied(env: Environment, owner: string, repo: string, event: string, id: int, data: string)
    ensures var o := ApplyAll(Defaults(env), NewOptions(owner, repo, event, id, data));
            && o.owner == owner && o.repo == repo && o.event == event && o.id == id && o.data == data
            && o.token == env.token && o.ctx.None? && o.client.None? && o.configPath == ""
  {
    var opts := NewOptions(owner, repo, event, id, data);
    var d := Defaults(env);
    assert ApplyAll(d, opts[..1]) == d.With(opts[0]) by { assert opts[..1][..0] == []; }
    assert ApplyAll(d, opts[..2]) == ApplyAll(d, opts[..1]).With(opts[1]) by { assert opts[..2][..1] == opts[..1]; }
    assert ApplyAll(d, opts[..3]) == ApplyAll(d, opts[..2]).With(opts[2]) by { assert opts[..3][..2] == opts[..2]; }
    assert ApplyAll(d, opts[..4]) == ApplyAll(d, opts[..3]).With(opts[3]) by { assert opts[..4][..3] == opts[..3]; }
    assert opts[..5] == opts;
  }
}
