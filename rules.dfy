/**
 * The keyword tables the classifiers are made of. Each script tests a text
 * against a list of alternations (`/caf|coffee|.../`) in a fixed order;
 * a `Rule` is one such alternation with the label it yields.
 */
module Rules {
  import opened Wrappers
  import opened Text

  datatype Rule = Rule(words: seq<string>, outcome: string)

  predicate Matches(text: string, rule: Rule) {
    ContainsAny(text, rule.words)
  }

  /** The label of the first rule that matches: an `if ... return` cascade. */
  function FirstMatch(text: string, rules: seq<Rule>): (r: Option<string>)
    ensures r.None? <==> forall i :: 0 <= i < |rules| ==> !Matches(text, rules[i])
    ensures r.Some? ==> exists i :: (0 <= i < |rules| && Matches(text, rules[i]) && rules[i].outcome == r.value
      && forall j :: 0 <= j < i ==> !Matches(text, rules[j]))
    decreases |rules|
  {
    if rules == [] then None
    else if Matches(text, rules[0]) then Some(rules[0].outcome)
    else
      var r := FirstMatch(text, rules[1..]);
      assert forall i :: 1 <= i < |rules| ==> rules[i] == rules[1..][i - 1];
      r
  }

  /** The first rule that matches decides: no later rule can. */
  lemma FirstMatchIsFirst(text: string, rules: seq<Rule>)
    ensures forall i :: 0 <= i < |rules| && Matches(text, rules[i]) && (forall j :: 0 <= j < i ==> !Matches(text, rules[j]))
              ==> FirstMatch(text, rules) == Some(rules[i].outcome)
  {
    var r := FirstMatch(text, rules);
    forall i | 0 <= i < |rules| && Matches(text, rules[i]) && (forall j :: 0 <= j < i ==> !Matches(text, rules[j]))
      ensures r == Some(rules[i].outcome)
    {
      var k :| 0 <= k < |rules| && Matches(text, rules[k]) && rules[k].outcome == r.value
               && forall j :: 0 <= j < k ==> !Matches(text, rules[j]);
      assert k == i;
    }
  }

  /** A match only ever yields one of the table's outcomes. */
  lemma FirstMatchWithin(text: string, rules: seq<Rule>, outcomes: set<string>)
    requires forall i :: 0 <= i < |rules| ==> rules[i].outcome in outcomes
    ensures FirstMatch(text, rules).Some? ==> FirstMatch(text, rules).value in outcomes
  {
  }

  /** A label no rule gives is never the outcome of a match. */
  lemma FirstMatchAvoids(text: string, rules: seq<Rule>, tag: string)
    requires forall i :: 0 <= i < |rules| ==> rules[i].outcome != tag
    ensures FirstMatch(text, rules) != Some(tag)
  {
  }

  /** The labels of every rule that matches, in table order: a run of `if (...) out.push(label)`. */
  function AllMatches(text: string, rules: seq<Rule>): (r: seq<string>)
    ensures forall l :: l in r <==> exists i :: 0 <= i < |rules| && Matches(text, rules[i]) && rules[i].outcome == l
    ensures |r| <= |rules|
    decreases |rules|
  {
    if rules == [] then []
    else
      var rest := AllMatches(text, rules[1..]);
      assert forall i :: 1 <= i < |rules| ==> rules[i] == rules[1..][i - 1];
      (if Matches(text, rules[0]) then [rules[0].outcome] else []) + rest
  }

  /** When some rule matches, the first label of `AllMatches` is the one `FirstMatch` returns. */
  lemma {:induction false} AllMatchesStartsWithFirst(text: string, rules: seq<Rule>)
    ensures FirstMatch(text, rules).Some? <==> AllMatches(text, rules) != []
    ensures FirstMatch(text, rules).Some? ==> AllMatches(text, rules)[0] == FirstMatch(text, rules).value
    decreases |rules|
  {
    if rules != [] && !Matches(text, rules[0]) {
      AllMatchesStartsWithFirst(text, rules[1..]);
    }
  }

  /** Every word of every rule is non-empty and free of the characters of `sep`. */
  predicate WordsAvoid(rules: seq<Rule>, sep: string) {
    forall i, k :: 0 <= i < |rules| && 0 <= k < |rules[i].words| ==>
      rules[i].words[k] != [] && AvoidsChars(rules[i].words[k], sep)
  }

  /** When no rule matches there are no labels. */
  lemma NoMatchNoLabels(text: string, rules: seq<Rule>)
    requires forall i :: 0 <= i < |rules| ==> !Matches(text, rules[i])
    ensures AllMatches(text, rules) == []
  {
  }

  /** The empty text matches no rule whose words are all non-empty. */
  lemma EmptyMatchesNothing(rules: seq<Rule>)
    requires forall i, k :: 0 <= i < |rules| && 0 <= k < |rules[i].words| ==> rules[i].words[k] != []
    ensures forall i :: 0 <= i < |rules| ==> !Matches("", rules[i])
  {
    forall i, k | 0 <= i < |rules| && 0 <= k < |rules[i].words|
      ensures !Contains("", rules[i].words[k])
    {
    }
  }

  /**
   * The characters keywords are made of: lower-case ASCII letters, `_` and
   * `ç`. Separators are made of other characters.
   */
  predicate IsWordChar(c: char) {
    'a' <= c <= 'z' || c == '_' || c == '\U{E7}'
  }

  /** `w` is made of word characters only. */
  predicate Plain(w: string) {
    forall k :: 0 <= k < |w| ==> IsWordChar(w[k])
  }

  /** Every word in `ws` is non-empty and plain. */
  predicate AllPlain(ws: seq<string>) {
    forall k :: 0 <= k < |ws| ==> ws[k] != [] && Plain(ws[k])
  }

  /** `sep` holds no word character. */
  predicate NoWordChar(sep: string) {
    forall k :: 0 <= k < |sep| ==> !IsWordChar(sep[k])
  }

  /** A table of plain words avoids every separator without word characters. */
  lemma WordsAvoidByRule(rules: seq<Rule>, sep: string)
    requires NoWordChar(sep)
    requires forall i :: 0 <= i < |rules| ==> AllPlain(rules[i].words)
    ensures WordsAvoid(rules, sep)
  {
    forall i, k | 0 <= i < |rules| && 0 <= k < |rules[i].words|
      ensures rules[i].words[k] != [] && AvoidsChars(rules[i].words[k], sep)
    {
      var w := rules[i].words[k];
      assert Plain(w);
      forall j | 0 <= j < |w| ensures w[j] !in sep {
        assert IsWordChar(w[j]);
      }
    }
  }

  /** Some element of `xs` contains one of the rule's words. */
  predicate SomeElementMatches(xs: seq<string>, rule: Rule) {
    exists e, k :: e in xs && 0 <= k < |rule.words| && Contains(e, rule.words[k])
  }

  lemma MatchesJoin(xs: seq<string>, sep: string, rule: Rule)
    requires sep != []
    requires forall k :: 0 <= k < |rule.words| ==> rule.words[k] != [] && AvoidsChars(rule.words[k], sep)
    ensures Matches(Join(xs, sep), rule) <==> SomeElementMatches(xs, rule)
  {
    forall k | 0 <= k < |rule.words|
      ensures Contains(Join(xs, sep), rule.words[k]) <==> exists m :: 0 <= m < |xs| && Contains(xs[m], rule.words[k])
    {
      JoinOccurrence(xs, sep, rule.words[k]);
    }
    if Matches(Join(xs, sep), rule) {
      var k :| 0 <= k < |rule.words| && Contains(Join(xs, sep), rule.words[k]);
      var m :| 0 <= m < |xs| && Contains(xs[m], rule.words[k]);
      assert xs[m] in xs;
    }
    if SomeElementMatches(xs, rule) {
      var e, k :| e in xs && 0 <= k < |rule.words| && Contains(e, rule.words[k]);
      var m :| 0 <= m < |xs| && xs[m] == e;
      assert Contains(Join(xs, sep), rule.words[k]);
    }
  }

  /**
   * A table whose words avoid the separator cannot tell two lists with the
   * same elements apart: order and repeats in the list do not matter.
   */
  lemma FirstMatchJoinSameElements(xs: seq<string>, ys: seq<string>, sep: string, rules: seq<Rule>)
    requires sep != [] && WordsAvoid(rules, sep)
    requires forall e :: e in xs <==> e in ys
    ensures FirstMatch(Join(xs, sep), rules) == FirstMatch(Join(ys, sep), rules)
    ensures AllMatches(Join(xs, sep), rules) == AllMatches(Join(ys, sep), rules)
  {
    forall i | 0 <= i < |rules|
      ensures Matches(Join(xs, sep), rules[i]) == Matches(Join(ys, sep), rules[i])
    {
      MatchesJoin(xs, sep, rules[i]);
      MatchesJoin(ys, sep, rules[i]);
    }
    SameVerdictsSameResult(Join(xs, sep), Join(ys, sep), rules);
  }

  lemma {:induction false} SameVerdictsSameResult(a: string, b: string, rules: seq<Rule>)
    requires forall i :: 0 <= i < |rules| ==> Matches(a, rules[i]) == Matches(b, rules[i])
    ensures FirstMatch(a, rules) == FirstMatch(b, rules)
    ensures AllMatches(a, rules) == AllMatches(b, rules)
    decreases |rules|
  {
    if rules != [] {
      assert forall i :: 1 <= i < |rules| ==> rules[i] == rules[1..][i - 1];
      SameVerdictsSameResult(a, b, rules[1..]);
    }
  }
}
