/**
 * The Simple configuration schema: one comment, label -> include patterns, and a separate
 * label -> branch patterns map.
 */
module SimpleSchema {
  import opened Wrappers
  import opened Patterns
  import opened FullSchema

  datatype SimpleConfig = SimpleConfig(comment: string, labels: map<string, seq<string>>, branches: map<string, seq<string>>)
  {
    /**
     * Decoding alone: no structural check follows, so a document without labels is
     * accepted, unlike FullConfig.FromBytes.
     */
    static function FromBytes(decode: Decoder<SimpleConfig>, b: string): (r: Result<SimpleConfig>)
      ensures r.Ok? <==> decode(b).Ok?
      ensures r.Ok? ==> r.value == decode(b).value
      ensures r.Err? ==> r.error == decode(b).error
    {
      decode(b)
    }

    /** The branch patterns of `key`; a label without an entry has none. */
    function BranchesOf(key: string): seq<string>
    {
      if key in branches then branches[key] else []
    }

    /** The rule derived for each label that has at least one matching pattern. */
    function Selected(m: Matcher, text: string): map<string, Label>
    {
      map k | k in labels && MatchingPatterns(m, labels[k], text) != [] ::
        Label(MatchingPatterns(m, labels[k], text), [], BranchesOf(k))
    }

    /**
     * Joins the texts with one space; for every label collects the matching patterns in
     * order and, when there is one, yields a rule with exactly those as include patterns, no
     * exclude pattern and the label's branches.
     */
    method LabelsFor(m: Matcher, texts: seq<string>) returns (r: map<string, Label>)
      ensures forall k :: k in r <==> k in labels && AnyMatch(m, labels[k], Join(texts))
      ensures forall k | k in r :: r[k].includes == MatchingPatterns(m, labels[k], Join(texts))
      ensures forall k | k in r :: r[k].excludes == [] && r[k].branches == BranchesOf(k)
      ensures r == Selected(m, Join(texts))
    {
      var searchable := Join(texts);
      r := map[];
      var remaining := labels.Keys;
      while remaining != {}
        invariant remaining <= labels.Keys
        invariant forall k :: k in r <==> k in labels && k !in remaining && MatchingPatterns(m, labels[k], searchable) != []
        invariant forall k | k in r :: r[k] == Label(MatchingPatterns(m, labels[k], searchable), [], BranchesOf(k))
        decreases remaining
      {
        var key :| key in remaining;
        var matched := CollectMatching(m, labels[key], searchable);
        if |matched| > 0 {
          r := r[key := Label(matched, [], BranchesOf(key))];
        }
        remaining := remaining - {key};
      }
      assert r == Selected(m, searchable);
      forall k | k in labels
        ensures MatchingPatterns(m, labels[k], searchable) != [] <==> AnyMatch(m, labels[k], searchable)
      {
        MatchingPatternsEmpty(m, labels[k], searchable);
      }
    }
  }
}
