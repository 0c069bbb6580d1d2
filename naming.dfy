/**
 * Azure naming rules as the step declares them: a length range and a
 * regular expression that matches any character a name may not contain.
 * The declaration is data handed to the UI library; the predicates below
 * say what a name that the rules accept looks like.
 */
module Naming {
  import opened Results

  /** A negated character class `[^...]`: ranges and single characters it excludes. */
  datatype NegatedClass = NegatedClass(ranges: seq<(char, char)>, singles: seq<char>)

  datatype NamingRules = NamingRules(minLength: nat, maxLength: nat, invalidChars: NegatedClass)

  /** `[^a-zA-Z0-9\.\_\-\(\)]` */
  const ResourceGroupInvalidChars := NegatedClass([('a', 'z'), ('A', 'Z'), ('0', '9')], ['.', '_', '-', '(', ')'])

  /** Whether the class `[^...]` matches the character `c`. */
  predicate MatchesClass(cls: NegatedClass, c: char) {
    !(exists i :: 0 <= i < |cls.ranges| && cls.ranges[i].0 <= c <= cls.ranges[i].1) &&
    !(exists i :: 0 <= i < |cls.singles| && cls.singles[i] == c)
  }

  /** The position of the first character the class matches, as a regular-expression search reports it. */
  function Search(cls: NegatedClass, name: string): (r: Option<nat>)
    ensures r.Some? ==> r.value < |name| && MatchesClass(cls, name[r.value])
    ensures r.Some? ==> forall j :: 0 <= j < r.value ==> !MatchesClass(cls, name[j])
    ensures r.None? <==> forall j :: 0 <= j < |name| ==> !MatchesClass(cls, name[j])
  {
    if name == [] then None
    else if MatchesClass(cls, name[0]) then Some(0)
    else
      match Search(cls, name[1..])
      case None => None
      case Some(i) => Some(i + 1)
  }

  /** A name the rules accept: its length is in range and the invalid-character pattern finds nothing. */
  predicate Accepts(rules: NamingRules, name: string) {
    rules.minLength <= |name| <= rules.maxLength && Search(rules.invalidChars, name).None?
  }

  predicate IsResourceGroupNameChar(c: char) {
    'a' <= c <= 'z' || 'A' <= c <= 'Z' || '0' <= c <= '9' || c == '.' || c == '_' || c == '-' || c == '(' || c == ')'
  }

  /**
   * Rules with the resource-group character class accept exactly the names
   * in the length range made only of ASCII letters, digits, '.', '_', '-',
   * '(' and ')'.
   */
  lemma AcceptsResourceGroupName(rules: NamingRules, name: string)
    requires rules.invalidChars == ResourceGroupInvalidChars
    ensures Accepts(rules, name) <==>
              rules.minLength <= |name| <= rules.maxLength &&
              forall j :: 0 <= j < |name| ==> IsResourceGroupNameChar(name[j])
  {
    var cls := ResourceGroupInvalidChars;
    forall c: char
      ensures MatchesClass(cls, c) <==> !IsResourceGroupNameChar(c)
    {
      if IsResourceGroupNameChar(c) {
        if 'a' <= c <= 'z' { assert cls.ranges[0] == ('a', 'z'); }
        else if 'A' <= c <= 'Z' { assert cls.ranges[1] == ('A', 'Z'); }
        else if '0' <= c <= '9' { assert cls.ranges[2] == ('0', '9'); }
        else if c == '.' { assert cls.singles[0] == c; }
        else if c == '_' { assert cls.singles[1] == c; }
        else if c == '-' { assert cls.singles[2] == c; }
        else if c == '(' { assert cls.singles[3] == c; }
        else { assert cls.singles[4] == c; }
      }
    }
  }
}
