/** An ordered keyword ladder: a list of rules, each a set of keyword groups
    and a result, read top to bottom so that the first rule whose keywords
    occur in the text decides. The if/elif chains of the reply generator
    and of the rule-based extractor are both of this shape. */
module Ladder {
  import opened Basics
  import opened Strings

  /** A rule fires when, for one of its `clauses`, every keyword of that
      clause occurs in the text: `("rent" and "how much") or "lease"` is
      `[["rent", "how much"], ["lease"]]`. */
  datatype Rule<R> = Rule(clauses: seq<seq<string>>, result: R)

  predicate AllOccur(text: string, words: seq<string>)
  {
    forall i | 0 <= i < |words| :: Contains(text, words[i])
  }

  predicate Fires<R>(rule: Rule<R>, text: string)
  {
    exists i | 0 <= i < |rule.clauses| :: AllOccur(text, rule.clauses[i])
  }

  /** A rule that fires when any one of `words` occurs. */
  function AnyWord<R>(words: seq<string>, result: R): (rule: Rule<R>)
    ensures rule.result == result && |rule.clauses| == |words|
  {
    Rule(seq(|words|, i requires 0 <= i < |words| => [words[i]]), result)
  }

  lemma AnyWordFires<R>(words: seq<string>, result: R, text: string)
    ensures Fires(AnyWord(words, result), text) <==> ContainsAny(text, words)
  {
    var rule := AnyWord(words, result);
    if ContainsAny(text, words) {
      var i :| 0 <= i < |words| && Contains(text, words[i]);
      assert AllOccur(text, rule.clauses[i]);
    }
    if Fires(rule, text) {
      var i :| 0 <= i < |rule.clauses| && AllOccur(text, rule.clauses[i]);
      assert Contains(text, rule.clauses[i][0]);
    }
  }

  /** Rules made of one keyword each, as in an `any(kw in text for kw in …)`
      test or a `for … break` scan over a list of keywords. */
  function Singles<R>(pairs: seq<(string, R)>): (rules: seq<Rule<R>>)
    ensures |rules| == |pairs|
    ensures forall k | 0 <= k < |pairs| :: rules[k] == Rule([[pairs[k].0]], pairs[k].1)
  {
    seq(|pairs|, k requires 0 <= k < |pairs| => Rule([[pairs[k].0]], pairs[k].1))
  }

  /** A one-keyword rule fires exactly when its keyword occurs. */
  lemma SingleFires<R>(keyword: string, result: R, text: string)
    ensures Fires(Rule([[keyword]], result), text) <==> Contains(text, keyword)
  {
    var rule := Rule([[keyword]], result);
    if Contains(text, keyword) {
      assert AllOccur(text, rule.clauses[0]);
    }
    if Fires(rule, text) {
      assert AllOccur(text, rule.clauses[0]);
      assert Contains(text, rule.clauses[0][0]);
    }
  }

  /** The index of the first rule at or after `from` that fires. */
  function FirstFrom<R>(rules: seq<Rule<R>>, text: string, from: nat): (r: Option<nat>)
    requires from <= |rules|
    ensures r.Some? ==> from <= r.value < |rules| && Fires(rules[r.value], text)
    ensures r.Some? ==> forall j | from <= j < r.value :: !Fires(rules[j], text)
    ensures r.None? ==> forall j | from <= j < |rules| :: !Fires(rules[j], text)
    decreases |rules| - from
  {
    if from == |rules| then None
    else if Fires(rules[from], text) then Some(from)
    else FirstFrom(rules, text, from + 1)
  }

  function FirstIndex<R>(rules: seq<Rule<R>>, text: string): Option<nat>
  {
    FirstFrom(rules, text, 0)
  }

  /** The result of the first rule that fires, or `None` when none does. */
  function FirstMatch<R>(rules: seq<Rule<R>>, text: string): Option<R>
  {
    match FirstIndex(rules, text)
    case Some(k) => Some(rules[k].result)
    case None => None
  }

  /** First match wins: rule `k` decides exactly when it fires and no rule
      above it does. */
  lemma FirstIndexIs<R>(rules: seq<Rule<R>>, text: string, k: nat)
    requires k < |rules|
    ensures FirstIndex(rules, text) == Some(k) <==>
      Fires(rules[k], text) && forall j | 0 <= j < k :: !Fires(rules[j], text)
  {
  }

  /** No two rules share a result, so a result names its rule. */
  ghost predicate DistinctResults<R>(rules: seq<Rule<R>>)
  {
    forall i, j | 0 <= i < j < |rules| :: rules[i].result != rules[j].result
  }

  /** With distinct results, a result is chosen exactly when its rule fires
      and no rule above it does. */
  lemma FirstMatchIs<R>(rules: seq<Rule<R>>, text: string, k: nat)
    requires k < |rules| && DistinctResults(rules)
    ensures FirstMatch(rules, text) == Some(rules[k].result) <==>
      Fires(rules[k], text) && forall j | 0 <= j < k :: !Fires(rules[j], text)
  {
    FirstIndexIs(rules, text, k);
    var r := FirstIndex(rules, text);
    if r.Some? && r.value != k {
      assert rules[r.value].result != rules[k].result;
    }
  }

  /** The ladder yields nothing exactly when no rule fires. */
  lemma FirstMatchNone<R>(rules: seq<Rule<R>>, text: string)
    ensures FirstMatch(rules, text) == None <==> forall j | 0 <= j < |rules| :: !Fires(rules[j], text)
  {
    if FirstMatch(rules, text) != None {
      var k := FirstIndex(rules, text).value;
      assert Fires(rules[k], text);
    }
  }

  /** A rule that fires can be overridden only by a rule above it. */
  lemma FirstIndexAtMost<R>(rules: seq<Rule<R>>, text: string, k: nat)
    requires k < |rules| && Fires(rules[k], text)
    ensures FirstIndex(rules, text).Some? && FirstIndex(rules, text).value <= k
  {
  }
}
