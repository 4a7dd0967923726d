// The normal form behind every text hash: lower-case, split on white space, join with one
// blank.
module TextNormal {

  // What is needed of Python's str.lower() and of white space, over any character set.  A
  // character is settled if it is its own lower case.
  datatype TextRules = TextRules(lower: string -> string, isSpace: char -> bool) {
    predicate Settled(c: char) {
      lower([c]) == [c]
    }
  }

  ghost predicate AllSettled(rules: TextRules, s: string) {
    forall i :: 0 <= i < |s| ==> rules.Settled(s[i])
  }

  // Lower-casing yields settled characters, perhaps more or fewer of them than there were
  // and perhaps looking at their neighbours, and leaves settled text alone.
  ghost predicate Sane(rules: TextRules) {
    && rules.isSpace(' ') && rules.Settled(' ')
    && (forall s :: AllSettled(rules, rules.lower(s)))
    && (forall s :: AllSettled(rules, s) ==> rules.lower(s) == s)
  }

  type CharacterSet = rules: TextRules | Sane(rules) witness TextRules(s => s, c => c == ' ')

  // Any one of them: nothing else is assumed about it.
  const UNICODE: CharacterSet

  predicate IsSpace(c: char) {
    UNICODE.isSpace(c)
  }

  function Lower(s: string): string {
    UNICODE.lower(s)
  }

  // Length of the word at the front of s.
  function WordLength(s: string): (n: nat)
    ensures n <= |s|
    ensures forall i :: 0 <= i < n ==> !IsSpace(s[i])
    ensures n < |s| ==> IsSpace(s[n])
  {
    if s == "" || IsSpace(s[0]) then 0 else 1 + WordLength(s[1..])
  }

  // Python's str.split(): the maximal runs of characters that are not white space.
  function Split(s: string): (words: seq<string>)
    decreases |s|
  {
    if s == "" then []
    else if IsSpace(s[0]) then Split(s[1..])
    else
      var n := WordLength(s);
      [s[..n]] + Split(s[n..])
  }

  function Join(words: seq<string>): string {
    if words == [] then ""
    else if |words| == 1 then words[0]
    else words[0] + " " + Join(words[1..])
  }

  function Normalize(text: string): string {
    Join(Split(Lower(text)))
  }

  predicate IsWord(w: string) {
    w != "" && forall i :: 0 <= i < |w| ==> !IsSpace(w[i])
  }

  predicate IsLower(s: string) {
    forall i :: 0 <= i < |s| ==> UNICODE.Settled(s[i])
  }

  lemma {:induction false} SplitGivesWords(s: string)
    ensures forall w :: w in Split(s) ==> IsWord(w)
    ensures IsLower(s) ==> forall w :: w in Split(s) ==> IsLower(w)
    decreases |s|
  {
    if s != "" {
      var n := if IsSpace(s[0]) then 1 else WordLength(s);
      SplitGivesWords(s[n..]);
    }
  }

  lemma WordLengthAt(w: string, rest: string)
    requires forall i :: 0 <= i < |w| ==> !IsSpace(w[i])
    requires rest != "" ==> IsSpace(rest[0])
    ensures WordLength(w + rest) == |w|
  {
    assert forall i :: 0 <= i < |w| ==> (w + rest)[i] == w[i];
    assert rest != "" ==> (w + rest)[|w|] == rest[0];
  }

  // Joining loses nothing: splitting the joined text gives the words back.
  lemma {:induction false} SplitJoin(words: seq<string>)
    requires forall w :: w in words ==> IsWord(w)
    ensures Split(Join(words)) == words
  {
    if |words| >= 1 {
      var w := words[0];
      assert IsWord(w);
      var rest := if |words| == 1 then "" else " " + Join(words[1..]);
      assert Join(words) == w + rest;
      assert (w + rest)[0] == w[0];
      WordLengthAt(w, rest);
      assert (w + rest)[..|w|] == w && (w + rest)[|w|..] == rest;
      SplitJoin(words[1..]);
      if |words| > 1 {
        assert rest[1..] == Join(words[1..]);
      }
      assert Split(rest) == words[1..];
    }
  }

  lemma {:induction false} JoinLower(words: seq<string>)
    requires forall w :: w in words ==> IsLower(w)
    ensures IsLower(Join(words))
  {
    if |words| >= 1 {
      assert IsLower(words[0]);
      JoinLower(words[1..]);
    }
  }

  lemma LowerFixes(s: string)
    requires IsLower(s)
    ensures Lower(s) == s
  {
    assert AllSettled(UNICODE, s);
  }

  lemma LowerIsLower(s: string)
    ensures IsLower(Lower(s))
  {
    assert AllSettled(UNICODE, UNICODE.lower(s));
  }

  // The words of a normal form are the lower-cased words of the text.
  lemma WordsOfNormalForm(text: string)
    ensures Split(Lower(Normalize(text))) == Split(Lower(text))
  {
    LowerIsLower(text);
    SplitGivesWords(Lower(text));
    JoinLower(Split(Lower(text)));
    LowerFixes(Normalize(text));
    SplitJoin(Split(Lower(text)));
  }

  lemma NormalizeIdempotent(text: string)
    ensures Normalize(Normalize(text)) == Normalize(text)
  {
    WordsOfNormalForm(text);
  }

  // Two texts share a normal form exactly when their lower-cased words agree.
  lemma SameNormalForm(a: string, b: string)
    ensures Normalize(a) == Normalize(b) <==> Split(Lower(a)) == Split(Lower(b))
  {
    SplitGivesWords(Lower(a));
    SplitGivesWords(Lower(b));
    SplitJoin(Split(Lower(a)));
    SplitJoin(Split(Lower(b)));
  }

  // ---- What normal forms look like ----

  // Settled words with single blanks between them.
  predicate Canonical(s: string) {
    && IsLower(s)
    && (s != "" ==> !IsSpace(s[0]) && !IsSpace(s[|s| - 1]))
    && (forall i :: 0 <= i < |s| - 1 && IsSpace(s[i]) ==> s[i] == ' ' && !IsSpace(s[i + 1]))
  }

  lemma {:induction false} JoinCanonical(words: seq<string>)
    requires forall w :: w in words ==> IsWord(w) && IsLower(w)
    ensures Canonical(Join(words))
    ensures words != [] ==> Join(words) != "" && Join(words)[0] == words[0][0]
  {
    if |words| >= 1 {
      assert IsWord(words[0]) && IsLower(words[0]);
      JoinCanonical(words[1..]);
    }
  }

  lemma RestCanonical(s: string, n: nat)
    requires Canonical(s) && n < |s| && IsSpace(s[n])
    ensures s[n] == ' ' && n + 1 < |s| && Canonical(s[n + 1..])
  {
    var rest := s[n + 1..];
    assert forall i :: 0 <= i < |rest| ==> rest[i] == s[n + 1 + i];
  }

  lemma SplitOffWord(s: string)
    requires s != "" && !IsSpace(s[0])
    ensures var n := WordLength(s); n >= 1 && Split(s) == [s[..n]] + Split(s[n..])
  {
  }

  lemma SkipSpace(s: string, n: nat)
    requires n < |s| && IsSpace(s[n])
    ensures Split(s[n..]) == Split(s[n + 1..])
  {
    assert s[n..][1..] == s[n + 1..];
  }

  // The first word of such a text, and the rest after the blank.
  lemma FirstWord(s: string)
    requires Canonical(s) && s != ""
    ensures var n := WordLength(s);
      && n >= 1 && (n < |s| ==> s[n] == ' ' && n + 1 < |s| && Canonical(s[n + 1..]))
      && Split(s) == [s[..n]] + if n < |s| then Split(s[n + 1..]) else []
  {
    var n := WordLength(s);
    SplitOffWord(s);
    if n < |s| {
      RestCanonical(s, n);
      hide Canonical, Split;
      SkipSpace(s, n);
    } else {
      assert s[n..] == "" && Split("") == [];
      hide Canonical, Split;
    }
  }

  lemma JoinMore(w: string, words: seq<string>)
    ensures Join([w] + words) == if words == [] then w else w + " " + Join(words)
  {
    assert ([w] + words)[1..] == words;
  }

  lemma CutAtBlank(s: string, n: nat)
    requires n < |s| && s[n] == ' '
    ensures s[..n] + " " + s[n + 1..] == s
  {
  }

  lemma {:induction false} JoinSplitCanonical(s: string)
    requires Canonical(s)
    ensures Join(Split(s)) == s && (s != "" ==> Split(s) != [])
    decreases |s|
  {
    if s != "" {
      hide Canonical, Split, Join, IsSpace;
      FirstWord(s);
      var n := WordLength(s);
      var rest := if n < |s| then Split(s[n + 1..]) else [];
      JoinMore(s[..n], rest);
      if n < |s| {
        CutAtBlank(s, n);
        JoinSplitCanonical(s[n + 1..]);
      } else {
        assert s[..n] == s;
      }
    }
  }

  // A text is a normal form exactly if it looks like one.
  lemma NormalFormsAreCanonical(s: string)
    ensures Canonical(Normalize(s))
    ensures Normalize(s) == s <==> Canonical(s)
  {
    LowerIsLower(s);
    SplitGivesWords(Lower(s));
    JoinCanonical(Split(Lower(s)));
    if Canonical(s) {
      LowerFixes(s);
      JoinSplitCanonical(s);
    }
  }
}
