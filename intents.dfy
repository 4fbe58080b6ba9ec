/** The intent table shared by both assistants, the training set extracted
    from it, and the reply lookup that follows a predicted tag. */
module Intents {
  import opened Wrappers
  import opened Text

  /** One record of the `intents` list: a tag, example phrases used only to
      train the classifier, and candidate replies. */
  datatype Intent = Intent(tag: string, patterns: seq<string>, responses: seq<string>)

  /** One training sample: a lower-cased phrase and the tag of its intent. */
  datatype Example = Example(pattern: string, tag: string)

  /** The two parallel lists handed to the classifier. */
  datatype TrainingSet = TrainingSet(patterns: seq<string>, tags: seq<string>)

  /** Training stops when not a single non-blank pattern is found. */
  datatype TrainingError = NoTrainingPatterns

  /** The samples one intent contributes: its non-blank patterns, lower-cased,
      in the order they are listed. */
  function PatternExamples(tag: string, patterns: seq<string>): seq<Example>
  {
    if patterns == [] then []
    else
      var last := patterns[|patterns| - 1];
      PatternExamples(tag, patterns[..|patterns| - 1])
      + (if IsBlank(last) then [] else [Example(Lower(last), tag)])
  }

  /** The samples of a whole table, intent after intent. */
  function Examples(intents: seq<Intent>): seq<Example>
  {
    if intents == [] then []
    else
      var last := intents[|intents| - 1];
      Examples(intents[..|intents| - 1]) + PatternExamples(last.tag, last.patterns)
  }

  /** Pattern `j` of intent `i` exists and is not blank. */
  predicate Kept(intents: seq<Intent>, i: int, j: int)
  {
    0 <= i < |intents| && 0 <= j < |intents[i].patterns| && !IsBlank(intents[i].patterns[j])
  }

  /** The training loop: walk every intent and every pattern, skip the blank
      ones, and append the lower-cased pattern and its intent's tag. */
  method ExtractTrainingSet(intents: seq<Intent>) returns (r: Result<TrainingSet, TrainingError>)
    ensures r.Failure? <==> Examples(intents) == []
    ensures r.Success? ==>
      && |r.value.patterns| == |r.value.tags| == |Examples(intents)|
      && forall k :: 0 <= k < |Examples(intents)| ==>
           Examples(intents)[k] == Example(r.value.patterns[k], r.value.tags[k])
  {
    var patterns: seq<string>, tags: seq<string> := [], [];
    var i := 0;
    while i < |intents|
      invariant 0 <= i <= |intents|
      invariant |patterns| == |tags| == |Examples(intents[..i])|
      invariant forall k :: 0 <= k < |patterns| ==> Examples(intents[..i])[k] == Example(patterns[k], tags[k])
    {
      var intent := intents[i];
      ghost var before := Examples(intents[..i]);
      var j := 0;
      while j < |intent.patterns|
        invariant 0 <= j <= |intent.patterns|
        invariant |patterns| == |tags| == |before + PatternExamples(intent.tag, intent.patterns[..j])|
        invariant forall k :: 0 <= k < |patterns| ==>
          (before + PatternExamples(intent.tag, intent.patterns[..j]))[k] == Example(patterns[k], tags[k])
      {
        var pattern := intent.patterns[j];
        assert intent.patterns[..j + 1][..j] == intent.patterns[..j];
        StripEmptyIffBlank(pattern);
        if Strip(pattern) != [] {
          patterns := patterns + [Lower(pattern)];
          tags := tags + [intent.tag];
        }
        j := j + 1;
      }
      assert intent.patterns[..j] == intent.patterns;
      assert intents[..i + 1][..i] == intents[..i];
      i := i + 1;
    }
    assert intents[..i] == intents;
    if patterns == [] {
      r := Failure(NoTrainingPatterns);
    } else {
      r := Success(TrainingSet(patterns, tags));
    }
  }

  lemma {:induction false} PatternExamplesAppend(tag: string, p: seq<string>, q: seq<string>)
    ensures PatternExamples(tag, p + q) == PatternExamples(tag, p) + PatternExamples(tag, q)
    decreases |q|
  {
    if q == [] {
      assert p + q == p;
    } else {
      var q' := q[..|q| - 1];
      assert (p + q)[..|p + q| - 1] == p + q';
      PatternExamplesAppend(tag, p, q');
    }
  }

  /** Extraction keeps the order of the table: the samples of two tables laid
      end to end are the samples of the first followed by those of the second. */
  lemma {:induction false} ExamplesAppend(a: seq<Intent>, b: seq<Intent>)
    ensures Examples(a + b) == Examples(a) + Examples(b)
    decreases |b|
  {
    if b == [] {
      assert a + b == a;
    } else {
      var b' := b[..|b| - 1];
      assert (a + b)[..|a + b| - 1] == a + b';
      ExamplesAppend(a, b');
    }
  }

  /** Every sample of one intent carries that intent's tag and comes from a
      kept pattern; every kept pattern yields a sample. */
  lemma {:induction false} PatternExamplesMembers(tag: string, patterns: seq<string>, e: Example)
    ensures e in PatternExamples(tag, patterns) <==>
      e.tag == tag && exists j :: 0 <= j < |patterns| && !IsBlank(patterns[j]) && e.pattern == Lower(patterns[j])
  {
    if patterns != [] {
      var init := patterns[..|patterns| - 1];
      PatternExamplesMembers(tag, init, e);
      assert forall j :: 0 <= j < |init| ==> init[j] == patterns[j];
    }
  }

  /** Sample `e` comes from pattern `j` of intent `i`. */
  predicate Source(intents: seq<Intent>, i: int, j: int, e: Example)
  {
    Kept(intents, i, j) && e == Example(Lower(intents[i].patterns[j]), intents[i].tag)
  }

  /** Every sample is traceable to a non-blank pattern of an intent, paired
      with that intent's tag, and every non-blank pattern is represented. */
  lemma {:induction false} ExamplesMembers(intents: seq<Intent>, e: Example)
    ensures e in Examples(intents) <==> exists i, j :: Source(intents, i, j, e)
  {
    if intents != [] {
      var n := |intents| - 1;
      var init, last := intents[..n], intents[n];
      ExamplesMembers(init, e);
      PatternExamplesMembers(last.tag, last.patterns, e);
      assert Examples(intents) == Examples(init) + PatternExamples(last.tag, last.patterns);
      if e in Examples(intents) {
        if e in Examples(init) {
          var i, j :| Source(init, i, j, e);
          assert intents[i] == init[i];
          assert Source(intents, i, j, e);
        } else {
          var j :| 0 <= j < |last.patterns| && !IsBlank(last.patterns[j]) && e.pattern == Lower(last.patterns[j]);
          assert Source(intents, n, j, e);
        }
      }
      forall i, j | Source(intents, i, j, e)
        ensures e in Examples(intents)
      {
        if i < n {
          assert intents[i] == init[i];
          assert Source(init, i, j, e);
        }
      }
    }
  }

  /** Every sample is a non-blank, lower-case phrase. */
  lemma ExamplesWellFormed(intents: seq<Intent>, e: Example)
    requires e in Examples(intents)
    ensures !IsBlank(e.pattern) && IsLowerCase(e.pattern)
  {
    ExamplesMembers(intents, e);
    var i, j :| Source(intents, i, j, e);
    LowerKeepsSpaces(intents[i].patterns[j]);
    LowerIsLowerCase(intents[i].patterns[j]);
  }

  /** The error path is taken exactly when every pattern of every intent is blank. */
  lemma NoExamplesIffAllBlank(intents: seq<Intent>)
    ensures Examples(intents) == [] <==>
      forall i, j :: 0 <= i < |intents| && 0 <= j < |intents[i].patterns| ==> IsBlank(intents[i].patterns[j])
  {
    forall i, j | 0 <= i < |intents| && 0 <= j < |intents[i].patterns| && !IsBlank(intents[i].patterns[j])
      ensures Examples(intents) != []
    {
      var e := Example(Lower(intents[i].patterns[j]), intents[i].tag);
      ExamplesMembers(intents, e);
      assert Source(intents, i, j, e);
    }
    if Examples(intents) != [] {
      var e := Examples(intents)[0];
      ExamplesMembers(intents, e);
      var i, j :| Source(intents, i, j, e);
    }
  }

  /** Intent `i` is the first one in the table whose tag is `tag`. */
  predicate FirstTagged(intents: seq<Intent>, tag: string, i: int)
  {
    0 <= i < |intents| && intents[i].tag == tag && forall j :: 0 <= j < i ==> intents[j].tag != tag
  }

  /** The `for intent in intents: if intent["tag"] == tag` search: the index of
      the first intent carrying `tag`, or `None` when no intent carries it. */
  function FindIntent(intents: seq<Intent>, tag: string): (r: Option<nat>)
    ensures r.Some? ==> FirstTagged(intents, tag, r.value)
    ensures r.None? ==> forall i :: 0 <= i < |intents| ==> intents[i].tag != tag
  {
    if intents == [] then None
    else if intents[0].tag == tag then Some(0)
    else
      match FindIntent(intents[1..], tag)
      case None => None
      case Some(i) => Some(i + 1)
  }

  /** `random.choice(responses)`: the random draw is the oracle `roll`. */
  function Pick(responses: seq<string>, roll: nat): (r: string)
    requires |responses| > 0
    ensures r in responses
  {
    responses[roll % |responses|]
  }

  /** Every candidate reply can be drawn. */
  lemma PickReachesEvery(responses: seq<string>, k: nat)
    requires k < |responses|
    ensures Pick(responses, k) == responses[k]
  {
  }

  /** The reply for a predicted tag: a random response of the first intent
      carrying the tag. `None` when no intent carries it, and also when that
      intent has no responses (`random.choice` of an empty list raises). */
  function ReplyForTag(intents: seq<Intent>, tag: string, roll: nat): (r: Option<string>)
    ensures r.Some? <==> exists i :: FirstTagged(intents, tag, i) && |intents[i].responses| > 0
    ensures forall i :: FirstTagged(intents, tag, i) && r.Some? ==> r.value in intents[i].responses
  {
    match FindIntent(intents, tag)
    case None => None
    case Some(i) =>
      if |intents[i].responses| == 0 then None else Some(Pick(intents[i].responses, roll))
  }
}
