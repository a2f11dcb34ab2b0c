/**
 * The Full configuration schema: per-label include, exclude and branch patterns, plus
 * optional switches and an optional comment per event type.
 */
module FullSchema {
  import opened Wrappers
  import opened Patterns

  /** Switches for issues and pull requests; absent YAML keys stay nil. */
  datatype Enable = Enable(issues: Option<bool>, pullRequests: Option<bool>)

  /** Comment text to post on issues or on pull requests once labels are applied. */
  datatype Comments = Comments(issues: Option<string>, pullRequests: Option<string>)

  /** The rule governing one label. */
  datatype Label = Label(includes: seq<string>, excludes: seq<string>, branches: seq<string>)

  const LabelsRequired := "full config requires labels to be defined"

  /** Some exclude pattern of `rule` matches: exclusion wins over inclusion. */
  predicate Excluded(rule: Label, m: Matcher, text: string)
  {
    AnyMatch(m, rule.excludes, text)
  }

  /** Some include pattern of `rule` matches. */
  predicate Included(rule: Label, m: Matcher, text: string)
  {
    AnyMatch(m, rule.includes, text)
  }

  /** No element occurs twice. */
  predicate Distinct(s: seq<string>)
  {
    forall i, j | 0 <= i < j < |s| :: s[i] != s[j]
  }

  datatype FullConfig = FullConfig(enable: Option<Enable>, comments: Option<Comments>, labels: map<string, Label>)
  {
    /**
     * The check that follows YAML decoding: a decode error is returned as it is, and a
     * document that declares no label is refused.
     */
    static function FromBytes(decode: Decoder<FullConfig>, b: string): (r: Result<FullConfig>)
      ensures r.Ok? <==> decode(b).Ok? && |decode(b).value.labels| > 0
      ensures r.Ok? ==> r.value == decode(b).value
      ensures decode(b).Err? ==> r.error == decode(b).error
      ensures decode(b).Ok? && |decode(b).value.labels| == 0 ==> r == Err(LabelsRequired)
    {
      match decode(b)
      case Err(e) => Err(e)
      case Ok(f) => if |f.labels| == 0 then Err(LabelsRequired) else Ok(f)
    }

    /** No rule of this configuration is excluded by `text`. */
    predicate NoneExcluded(m: Matcher, text: string)
    {
      forall k | k in labels :: !Excluded(labels[k], m, text)
    }

    /** The labels selected when every rule is judged on its own: included and not excluded. */
    function Selected(m: Matcher, text: string): map<string, Label>
    {
      map k | k in labels && Included(labels[k], m, text) && !Excluded(labels[k], m, text) :: labels[k]
    }

    /**
     * `visited` is a prefix of one iteration order of `labels` that the loop of LabelsFor
     * walks: distinct keys, none excluded except possibly the last, and it stops early only
     * at an excluded one.
     */
    predicate Walk(visited: seq<string>, m: Matcher, text: string)
    {
      && (forall i | 0 <= i < |visited| :: visited[i] in labels)
      && Distinct(visited)
      && (forall i | 0 <= i < |visited| - 1 :: !Excluded(labels[visited[i]], m, text))
      && ((forall k | k in labels :: k in visited)
          || (|visited| > 0 && Excluded(labels[visited[|visited| - 1]], m, text)))
    }

    /** The selected labels among those a walk reached. */
    function SelectedAmong(visited: seq<string>, m: Matcher, text: string): map<string, Label>
    {
      map k | k in Selected(m, text) && k in visited :: labels[k]
    }

    /**
     * Joins the texts with one space and walks the labels: a label with a matching exclude
     * pattern ends the whole walk (the source breaks out of the outer loop, it does not skip
     * to the next label); otherwise a label with a matching include pattern is kept with its
     * rule unchanged.
     */
    method LabelsFor(m: Matcher, texts: seq<string>) returns (r: map<string, Label>)
      ensures Possible(this, m, Join(texts), r)
      ensures forall k | k in r :: k in labels && r[k] == labels[k]
      ensures forall k | k in r :: Included(labels[k], m, Join(texts)) && !Excluded(labels[k], m, Join(texts))
      ensures NoneExcluded(m, Join(texts)) ==> r == Selected(m, Join(texts))
    {
      var searchable := Join(texts);
      r := map[];
      ghost var visited := [];
      var remaining := labels.Keys;
      while remaining != {}
        invariant remaining <= labels.Keys
        invariant forall k | k in labels :: k in remaining <==> k !in visited
        invariant Distinct(visited)
        invariant forall k | k in visited :: k in labels && !Excluded(labels[k], m, searchable)
        invariant forall k :: k in r <==> k in visited && Included(labels[k], m, searchable)
        invariant forall k | k in r :: r[k] == labels[k]
        decreases remaining
      {
        var key :| key in remaining;
        var rule := labels[key];
        remaining := remaining - {key};
        var excluded := MatchAny(m, rule.excludes, searchable);
        if excluded {
          WalkEndsAtExcluded(this, visited, key, m, searchable);
          visited := visited + [key];
          assert r == SelectedAmong(visited, m, searchable);
          return;
        }
        DistinctAppend(visited, key);
        visited := visited + [key];
        var included := MatchAny(m, rule.includes, searchable);
        if included {
          r := r[key := rule];
        }
      }
      WalkCoversAll(this, visited, m, searchable);
      assert r == SelectedAmong(visited, m, searchable);
    }
  }

  /** The results LabelsFor can return, whatever order Go's map iteration picks. */
  ghost predicate Possible(c: FullConfig, m: Matcher, text: string, r: map<string, Label>)
  {
    exists visited :: c.Walk(visited, m, text) && r == c.SelectedAmong(visited, m, text)
  }

  /** Stopping at an excluded label after a walk of non-excluded ones is a walk. */
  lemma WalkEndsAtExcluded(c: FullConfig, visited: seq<string>, key: string, m: Matcher, text: string)
    requires Distinct(visited) && key in c.labels && key !in visited
    requires forall k | k in visited :: k in c.labels && !Excluded(c.labels[k], m, text)
    requires Excluded(c.labels[key], m, text)
    ensures c.Walk(visited + [key], m, text)
  {
    DistinctAppend(visited, key);
    var w := visited + [key];
    forall i | 0 <= i < |w| - 1
      ensures !Excluded(c.labels[w[i]], m, text)
    {
      assert w[i] == visited[i];
      assert visited[i] in visited;
    }
  }

  /** Visiting every label, none of them excluded, is a walk. */
  lemma WalkCoversAll(c: FullConfig, visited: seq<string>, m: Matcher, text: string)
    requires Distinct(visited)
    requires forall k | k in visited :: k in c.labels && !Excluded(c.labels[k], m, text)
    requires forall k | k in c.labels :: k in visited
    ensures c.Walk(visited, m, text)
  {
    forall i | 0 <= i < |visited| - 1
      ensures !Excluded(c.labels[visited[i]], m, text)
    {
      assert visited[i] in visited;
    }
  }

  /**
   * Whatever the iteration order, the result keeps only labels that the per-label
   * evaluation selects, with their rules; it is all of them when nothing is excluded.
   */
  lemma PossibleWithinSelected(c: FullConfig, m: Matcher, text: string, r: map<string, Label>)
    requires Possible(c, m, text, r)
    ensures forall k | k in r :: k in c.Selected(m, text) && r[k] == c.labels[k]
    ensures c.NoneExcluded(m, text) ==> r == c.Selected(m, text)
  {
    var visited :| c.Walk(visited, m, text) && r == c.SelectedAmong(visited, m, text);
    if c.NoneExcluded(m, text) && |visited| > 0 {
      assert !Excluded(c.labels[visited[|visited| - 1]], m, text);
    }
  }

  /** Appending an element that is not there keeps a sequence free of repetitions. */
  lemma DistinctAppend(s: seq<string>, x: string)
    requires Distinct(s) && x !in s
    ensures Distinct(s + [x])
  {
    forall i, j | 0 <= i < j < |s + [x]|
      ensures (s + [x])[i] != (s + [x])[j]
    {
      if j == |s| {
        assert s[i] in s;
      }
    }
  }

  /** An example: "wontfix" is excluded by the text "x", "bug" is included and not excluded. */
  function Example(): FullConfig
  {
    FullConfig(None, None, map["wontfix" := Label(["x"], ["x"], []), "bug" := Label(["x"], [], [])])
  }

  /** A matcher for the example: a pattern matches exactly the text equal to it. */
  function SameText(): Matcher
  {
    (p, t) => p == t
  }

  /** In the example, per-label evaluation selects "bug" and not "wontfix". */
  lemma ExampleSelected()
    ensures Excluded(Example().labels["wontfix"], SameText(), "x")
    ensures Included(Example().labels["bug"], SameText(), "x") && !Excluded(Example().labels["bug"], SameText(), "x")
    ensures "bug" in Example().Selected(SameText(), "x") && "wontfix" !in Example().Selected(SameText(), "x")
  {
    var wontfix, bug := Example().labels["wontfix"], Example().labels["bug"];
    assert SameText()(wontfix.excludes[0], "x");
    assert SameText()(bug.includes[0], "x");
  }

  /**
   * The early exit loses labels: when the excluded label comes first in the iteration
   * order, a label that is included and never excluded is still missing from the result;
   * the other order keeps it.
   */
  lemma BreakCanDropLabels()
    ensures Possible(Example(), SameText(), "x", map[])
    ensures "bug" in Example().Selected(SameText(), "x")
    ensures Possible(Example(), SameText(), "x", map["bug" := Example().labels["bug"]])
  {
    ExampleSelected();
    var c, m := Example(), SameText();
    assert c.Walk(["wontfix"], m, "x");
    assert c.SelectedAmong(["wontfix"], m, "x") == map[];
    assert c.Walk(["bug", "wontfix"], m, "x");
    assert c.SelectedAmong(["bug", "wontfix"], m, "x") == map["bug" := c.labels["bug"]];
  }
}
