// Vectors travel to PostgreSQL as literals "[x,y,z]" and come back as text.
// The float printer and parser are parameters.
module VectorLiteral {
  import opened Wrappers

  function Commas(parts: seq<string>): string {
    if parts == [] then ""
    else if |parts| == 1 then parts[0]
    else parts[0] + "," + Commas(parts[1..])
  }

  function Printed(repr: real -> string, v: seq<real>): seq<string> {
    seq(|v|, i requires 0 <= i < |v| => repr(v[i]))
  }

  function VecToPg(repr: real -> string, v: seq<real>): string {
    "[" + Commas(Printed(repr, v)) + "]"
  }

  predicate IsBracket(c: char) {
    c == '[' || c == ']' || c == '{' || c == '}'
  }

  // Python's strip("[]{}"): drop brackets at both ends.
  function StripLeft(s: string): string {
    if s != "" && IsBracket(s[0]) then StripLeft(s[1..]) else s
  }

  function StripRight(s: string): string {
    if s != "" && IsBracket(s[|s| - 1]) then StripRight(s[..|s| - 1]) else s
  }

  function Strip(s: string): string {
    StripRight(StripLeft(s))
  }

  // Python's split(","): an empty text gives one empty part.
  function SplitCommas(s: string): (parts: seq<string>)
    ensures parts != []
  {
    if s == "" then [""]
    else
      var rest := SplitCommas(s[1..]);
      if s[0] == ',' then [""] + rest else [[s[0]] + rest[0]] + rest[1..]
  }

  // Every part must parse; float() raises otherwise.
  function ParseAll(parse: string -> Option<real>, parts: seq<string>): Option<seq<real>> {
    if parts == [] then Some([])
    else
      match parse(parts[0])
      case None => None
      case Some(x) =>
        match ParseAll(parse, parts[1..])
        case None => None
        case Some(xs) => Some([x] + xs)
  }

  function ParseVector(parse: string -> Option<real>, s: string): Option<seq<real>> {
    ParseAll(parse, SplitCommas(Strip(s)))
  }

  predicate Plain(s: string) {
    forall i :: 0 <= i < |s| ==> s[i] != ',' && !IsBracket(s[i])
  }

  // The printed form of x is read back as x, and holds no separator.
  predicate PrintsBack(repr: real -> string, parse: string -> Option<real>, x: real) {
    parse(repr(x)) == Some(x) && Plain(repr(x))
  }

  lemma {:induction false} SplitPart(p: string, rest: string)
    requires Plain(p)
    requires rest != "" ==> rest[0] == ','
    ensures SplitCommas(p + rest) == [p] + (if rest == "" then [] else SplitCommas(rest[1..]))
  {
    if p == "" {
      assert p + rest == rest;
    } else {
      assert (p + rest)[1..] == p[1..] + rest;
      SplitPart(p[1..], rest);
      assert [p[0]] + p[1..] == p;
    }
  }

  lemma {:induction false} SplitOfCommas(parts: seq<string>)
    requires parts != []
    requires forall i :: 0 <= i < |parts| ==> Plain(parts[i])
    ensures SplitCommas(Commas(parts)) == parts
  {
    var rest := if |parts| == 1 then "" else "," + Commas(parts[1..]);
    assert Commas(parts) == parts[0] + rest;
    SplitPart(parts[0], rest);
    if |parts| > 1 {
      SplitOfCommas(parts[1..]);
      assert rest[1..] == Commas(parts[1..]);
    }
  }

  lemma {:induction false} CommasEnds(parts: seq<string>)
    requires parts != []
    requires forall i :: 0 <= i < |parts| ==> Plain(parts[i]) && parts[i] != ""
    ensures Commas(parts) != ""
    ensures !IsBracket(Commas(parts)[0]) && !IsBracket(Commas(parts)[|Commas(parts)| - 1])
  {
    if |parts| > 1 {
      CommasEnds(parts[1..]);
    }
  }

  lemma StripBrackets(body: string)
    requires body == "" || (!IsBracket(body[0]) && !IsBracket(body[|body| - 1]))
    ensures Strip("[" + body + "]") == body
  {
    var s := "[" + body + "]";
    assert s[1..] == body + "]";
    if body == "" {
      assert StripLeft(s) == StripLeft("]") == StripLeft("") == "";
    } else {
      assert (body + "]")[0] == body[0];
      assert StripLeft(s) == StripLeft(body + "]") == body + "]";
      assert (body + "]")[..|body + "]"| - 1] == body;
      assert (body + "]")[|body + "]"| - 1] == ']';
      assert StripRight(body + "]") == StripRight(body) == body;
    }
  }

  lemma {:induction false} ParsePrinted(repr: real -> string, parse: string -> Option<real>, v: seq<real>)
    requires forall i :: 0 <= i < |v| ==> PrintsBack(repr, parse, v[i])
    ensures ParseAll(parse, Printed(repr, v)) == Some(v)
  {
    if v != [] {
      assert PrintsBack(repr, parse, v[0]);
      forall i | 0 <= i < |v| - 1 ensures PrintsBack(repr, parse, v[1..][i]) {
        assert PrintsBack(repr, parse, v[i + 1]);
      }
      assert Printed(repr, v)[1..] == Printed(repr, v[1..]);
      ParsePrinted(repr, parse, v[1..]);
      assert [v[0]] + v[1..] == v;
    }
  }

  // The form PostgreSQL reads: brackets around the printed elements, with commas between.
  lemma PgForm(repr: real -> string, v: seq<real>)
    requires v != [] && forall i :: 0 <= i < |v| ==> Plain(repr(v[i]))
    ensures var s := VecToPg(repr, v);
      && |s| >= 2 && s[0] == '[' && s[|s| - 1] == ']'
      && SplitCommas(s[1..|s| - 1]) == Printed(repr, v)
  {
    var s, body := VecToPg(repr, v), Commas(Printed(repr, v));
    assert s[1..|s| - 1] == body;
    SplitOfCommas(Printed(repr, v));
  }

  // Printing and parsing give the vector back exactly when it is not empty: the
  // literal "[]" strips to an empty text, which float() rejects.
  lemma RoundTrip(repr: real -> string, parse: string -> Option<real>, v: seq<real>)
    requires parse("") == None
    requires forall i :: 0 <= i < |v| ==> PrintsBack(repr, parse, v[i])
    ensures ParseVector(parse, VecToPg(repr, v)) == Some(v) <==> v != []
  {
    var parts := Printed(repr, v);
    if v == [] {
      StripBrackets("");
    } else {
      forall i | 0 <= i < |parts| ensures Plain(parts[i]) && parts[i] != "" {
        assert PrintsBack(repr, parse, v[i]);
      }
      CommasEnds(parts);
      StripBrackets(Commas(parts));
      SplitOfCommas(parts);
      ParsePrinted(repr, parse, v);
    }
  }
}
