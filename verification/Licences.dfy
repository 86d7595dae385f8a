// The licence gate: two patterns searched in the licence fields of every installed distribution.
// scripts/check_licences.py.
module Licences {
  import opened Options

  // ---- the patterns ----

  datatype Regex =
    | Lit(text: string)
    | NotAfterCapital                         // (?<![A-Z])
    | Maybe(body: Regex)
    | Then(first: Regex, second: Regex)
    | Either(left: Regex, right: Regex)

  const COPYLEFT := Either(Lit("AFFERO"), Then(NotAfterCapital, Then(Maybe(Lit("A")), Lit("GPL"))))
  const AFFERO := Either(Lit("AFFERO"), Then(NotAfterCapital, Lit("AGPL")))

  predicate Capital(c: char) { 'A' <= c <= 'Z' }

  predicate AfterCapital(s: string, i: nat)
    requires i <= |s|
  {
    i > 0 && Capital(s[i - 1])
  }

  predicate At(s: string, i: nat, text: string) {
    i + |text| <= |s| && s[i..i + |text|] == text
  }

  // The pattern matches `s` from `i` to `j`.
  predicate Spans(r: Regex, s: string, i: nat, j: nat)
    requires i <= j <= |s|
  {
    match r
    case Lit(text) => j == i + |text| && At(s, i, text)
    case NotAfterCapital => i == j && !AfterCapital(s, i)
    case Maybe(body) => i == j || Spans(body, s, i, j)
    case Then(first, second) => exists k: nat :: i <= k <= j && Spans(first, s, i, k) && Spans(second, s, k, j)
    case Either(left, right) => Spans(left, s, i, j) || Spans(right, s, i, j)
  }

  // `pattern.search(s)` finds something.
  predicate Search(r: Regex, s: string) {
    exists i: nat, j: nat :: i <= j <= |s| && Spans(r, s, i, j)
  }

  // ---- what the two patterns find ----

  predicate CopyleftAt(s: string, i: nat) {
    At(s, i, "AFFERO") || (i <= |s| && !AfterCapital(s, i) && (At(s, i, "GPL") || At(s, i, "AGPL")))
  }

  predicate AfferoAt(s: string, i: nat) {
    At(s, i, "AFFERO") || (i <= |s| && !AfterCapital(s, i) && At(s, i, "AGPL"))
  }

  lemma LitAt(s: string, i: nat, j: nat, text: string)
    requires i <= j <= |s|
    ensures Spans(Lit(text), s, i, j) <==> j == i + |text| && At(s, i, text)
  {
  }

  lemma ThenSplits(first: Regex, second: Regex, s: string, i: nat, j: nat) returns (k: nat)
    requires i <= j <= |s| && Spans(Then(first, second), s, i, j)
    ensures i <= k <= j && Spans(first, s, i, k) && Spans(second, s, k, j)
  {
    k :| i <= k <= j && Spans(first, s, i, k) && Spans(second, s, k, j);
  }

  lemma ThenJoins(first: Regex, second: Regex, s: string, i: nat, k: nat, j: nat)
    requires i <= k <= j <= |s| && Spans(first, s, i, k) && Spans(second, s, k, j)
    ensures Spans(Then(first, second), s, i, j)
  {
  }

  lemma GplSpans(s: string, i: nat, j: nat)
    requires i <= j <= |s|
    ensures Spans(Then(Maybe(Lit("A")), Lit("GPL")), s, i, j) <==>
      (j == i + 3 && At(s, i, "GPL")) || (j == i + 4 && At(s, i, "AGPL"))
  {
    if At(s, i, "GPL") && j == i + 3 {
      ThenJoins(Maybe(Lit("A")), Lit("GPL"), s, i, i, j);
    }
    if At(s, i, "AGPL") && j == i + 4 {
      assert s[i + 1..j] == s[i..j][1..] == "GPL" && s[i..i + 1] == s[i..j][..1] == "A";
      ThenJoins(Maybe(Lit("A")), Lit("GPL"), s, i, i + 1, j);
    }
    if Spans(Then(Maybe(Lit("A")), Lit("GPL")), s, i, j) {
      var k := ThenSplits(Maybe(Lit("A")), Lit("GPL"), s, i, j);
      if k != i {
        assert s[i..k] == "A" && s[k..j] == "GPL";
        assert s[i..j] == s[i..k] + s[k..j];
      }
    }
  }

  lemma WordSpans(r: Regex, s: string, i: nat, j: nat)
    requires i <= j <= |s|
    ensures Spans(Then(NotAfterCapital, r), s, i, j) <==> !AfterCapital(s, i) && Spans(r, s, i, j)
  {
    if !AfterCapital(s, i) && Spans(r, s, i, j) { ThenJoins(NotAfterCapital, r, s, i, i, j); }
    if Spans(Then(NotAfterCapital, r), s, i, j) { var _ := ThenSplits(NotAfterCapital, r, s, i, j); }
  }

  lemma CopyleftSpans(s: string, i: nat, j: nat)
    requires i <= j <= |s|
    ensures Spans(COPYLEFT, s, i, j) <==>
      (j == i + 6 && At(s, i, "AFFERO"))
      || (!AfterCapital(s, i) && ((j == i + 3 && At(s, i, "GPL")) || (j == i + 4 && At(s, i, "AGPL"))))
  {
    WordSpans(Then(Maybe(Lit("A")), Lit("GPL")), s, i, j);
    GplSpans(s, i, j);
    LitAt(s, i, j, "AFFERO");
    EitherSpans(Lit("AFFERO"), Then(NotAfterCapital, Then(Maybe(Lit("A")), Lit("GPL"))), s, i, j);
    hide Spans, At;
  }

  lemma EitherSpans(left: Regex, right: Regex, s: string, i: nat, j: nat)
    requires i <= j <= |s|
    ensures Spans(Either(left, right), s, i, j) <==> Spans(left, s, i, j) || Spans(right, s, i, j)
  {
  }

  lemma CopyleftSearch(s: string)
    ensures Search(COPYLEFT, s) <==> exists i: nat :: CopyleftAt(s, i)
  {
    hide At, AfterCapital, Spans;
    if i: nat, j: nat :| i <= j <= |s| && Spans(COPYLEFT, s, i, j) {
      CopyleftSpans(s, i, j);
      assert CopyleftAt(s, i);
    }
    if i: nat :| CopyleftAt(s, i) {
      AtFits(s, i);
      var j := i + if At(s, i, "AFFERO") then 6 else if At(s, i, "GPL") then 3 else 4;
      CopyleftSpans(s, i, j);
    }
  }

  lemma AtFits(s: string, i: nat)
    ensures At(s, i, "AFFERO") ==> i + 6 <= |s|
    ensures At(s, i, "GPL") ==> i + 3 <= |s|
    ensures At(s, i, "AGPL") ==> i + 4 <= |s|
  {
  }

  lemma AfferoSpans(s: string, i: nat, j: nat)
    requires i <= j <= |s|
    ensures Spans(AFFERO, s, i, j) <==>
      (j == i + 6 && At(s, i, "AFFERO")) || (!AfterCapital(s, i) && j == i + 4 && At(s, i, "AGPL"))
  {
    WordSpans(Lit("AGPL"), s, i, j);
    LitAt(s, i, j, "AGPL");
    LitAt(s, i, j, "AFFERO");
    EitherSpans(Lit("AFFERO"), Then(NotAfterCapital, Lit("AGPL")), s, i, j);
    hide Spans, At;
  }

  lemma AfferoSearch(s: string)
    ensures Search(AFFERO, s) <==> exists i: nat :: AfferoAt(s, i)
  {
    hide At, AfterCapital, Spans;
    if i: nat, j: nat :| i <= j <= |s| && Spans(AFFERO, s, i, j) {
      AfferoSpans(s, i, j);
      assert AfferoAt(s, i);
    }
    if i: nat :| AfferoAt(s, i) {
      AtFits(s, i);
      AfferoSpans(s, i, i + if At(s, i, "AFFERO") then 6 else 4);
    }
  }

  // Whatever the Affero pattern finds, the copyleft pattern finds.
  lemma AfferoIsCopyleft(s: string)
    requires Search(AFFERO, s)
    ensures Search(COPYLEFT, s)
  {
    AfferoSearch(s);
    CopyleftSearch(s);
    var i: nat :| AfferoAt(s, i);
    assert CopyleftAt(s, i);
  }

  // "GPL" at `i` is a word start, or the end of an "AGPL" that is one.
  predicate OpensAWord(s: string, i: nat)
    requires i <= |s|
  {
    !AfterCapital(s, i) || (s[i - 1] == 'A' && !AfterCapital(s, i - 1))
  }

  // A text is copyleft exactly if it says AFFERO or has a GPL that is neither inside a longer word of
  // capitals nor anything but an A past its start.
  lemma CopyleftExactly(s: string)
    ensures Search(COPYLEFT, s) <==>
      (exists i: nat :: At(s, i, "AFFERO")) || (exists i: nat :: At(s, i, "GPL") && i <= |s| && OpensAWord(s, i))
  {
    hide At;
    CopyleftSearch(s);
    if i: nat :| CopyleftAt(s, i) && !At(s, i, "AFFERO") {
      AtFits(s, i);
      AgplIsGpl(s, i);
      var g := if At(s, i, "AGPL") then i + 1 else i;
      assert At(s, g, "GPL") && g <= |s| && OpensAWord(s, g);
    }
    if i: nat :| At(s, i, "AFFERO") { assert CopyleftAt(s, i); }
    if i: nat :| At(s, i, "GPL") && i <= |s| && OpensAWord(s, i) {
      if i > 0 { AgplIsGpl(s, i - 1); }
      assert CopyleftAt(s, if AfterCapital(s, i) then i - 1 else i);
    }
  }

  lemma AtByCharacter(s: string, i: nat, text: string)
    ensures At(s, i, text) <==> i + |text| <= |s| && forall k | 0 <= k < |text| :: s[i + k] == text[k]
  {
    if i + |text| <= |s| {
      var piece := s[i..i + |text|];
      assert forall k | 0 <= k < |text| :: piece[k] == s[i + k];
    }
  }

  lemma AgplIsGpl(s: string, i: nat)
    ensures At(s, i, "AGPL") <==> i < |s| && s[i] == 'A' && At(s, i + 1, "GPL")
  {
    AtByCharacter(s, i, "AGPL");
    AtByCharacter(s, i + 1, "GPL");
    hide At;
  }

  // Text whose every GPL sits inside LGPL is not copyleft.
  lemma LesserIsNotCopyleft(s: string)
    requires forall i: nat :: !At(s, i, "AFFERO")
    requires forall i: nat :: At(s, i, "GPL") ==> i > 0 && s[i - 1] == 'L'
    ensures !Search(COPYLEFT, s)
  {
    CopyleftExactly(s);
    hide At;
    assert forall i: nat :: At(s, i, "GPL") ==> i <= |s| && !OpensAWord(s, i) by {
      forall i: nat | At(s, i, "GPL") ensures i <= |s| && !OpensAWord(s, i) { AtFits(s, i); }
    }
  }

  // ---- searching joined fields ----

  predicate Separator(c: char) { c == ' ' || c == ';' }

  predicate Separates(sep: string) { sep != "" && forall i | 0 <= i < |sep| :: Separator(sep[i]) }

  // No literal of the pattern has a separator in it, and what it matches is never empty.
  predicate Plain(r: Regex) {
    match r
    case Lit(text) => forall i | 0 <= i < |text| :: !Separator(text[i])
    case NotAfterCapital => true
    case Maybe(body) => Plain(body)
    case Then(first, second) => Plain(first) && Plain(second)
    case Either(left, right) => Plain(left) && Plain(right)
  }

  predicate Consumes(r: Regex) {
    match r
    case Lit(text) => text != ""
    case NotAfterCapital => false
    case Maybe(_) => false
    case Then(first, second) => Consumes(first) || Consumes(second)
    case Either(left, right) => Consumes(left) && Consumes(right)
  }

  lemma {:induction false} MatchIsPlain(r: Regex, s: string, i: nat, j: nat)
    requires i <= j <= |s| && Plain(r) && Spans(r, s, i, j)
    ensures forall k | i <= k < j :: !Separator(s[k])
    ensures Consumes(r) ==> i < j
  {
    match r
    case Lit(text) =>
      forall k | i <= k < j ensures !Separator(s[k]) { assert s[k] == s[i..j][k - i] == text[k - i]; }
    case NotAfterCapital =>
    case Maybe(body) => if i < j { MatchIsPlain(body, s, i, j); }
    case Then(first, second) =>
      var k: nat :| i <= k <= j && Spans(first, s, i, k) && Spans(second, s, k, j);
      MatchIsPlain(first, s, i, k);
      MatchIsPlain(second, s, k, j);
    case Either(left, right) =>
      if Spans(left, s, i, j) { MatchIsPlain(left, s, i, j); } else { MatchIsPlain(right, s, i, j); }
  }

  // A piece that no capital comes before is matched inside a text as it is on its own.
  lemma {:induction false} PieceSpans(r: Regex, piece: string, s: string, o: nat, i: nat, j: nat)
    requires i <= j <= |piece| && o + |piece| <= |s| && At(s, o, piece) && !AfterCapital(s, o)
    ensures Spans(r, piece, i, j) <==> Spans(r, s, o + i, o + j)
  {
    hide At, AfterCapital;
    match r
    case Lit(text) => if j == i + |text| { PieceAt(piece, s, o, i, text); }
    case NotAfterCapital => PieceCapital(piece, s, o, i);
    case Maybe(body) => PieceSpans(body, piece, s, o, i, j);
    case Then(first, second) =>
      hide Spans;
      if Spans(r, piece, i, j) {
        var k := ThenSplits(first, second, piece, i, j);
        PieceSpans(first, piece, s, o, i, k);
        PieceSpans(second, piece, s, o, k, j);
        ThenJoins(first, second, s, o + i, o + k, o + j);
      }
      if Spans(r, s, o + i, o + j) {
        var m := ThenSplits(first, second, s, o + i, o + j);
        var k: nat := m - o;
        PieceSpans(first, piece, s, o, i, k);
        PieceSpans(second, piece, s, o, k, j);
        ThenJoins(first, second, piece, i, k, j);
      }
    case Either(left, right) =>
      PieceSpans(left, piece, s, o, i, j);
      PieceSpans(right, piece, s, o, i, j);
  }

  lemma PieceAt(piece: string, s: string, o: nat, i: nat, text: string)
    requires At(s, o, piece) && i + |text| <= |piece|
    ensures At(piece, i, text) <==> At(s, o + i, text)
  {
    assert piece[i..i + |text|] == s[o + i..o + i + |text|] by {
      assert forall k | 0 <= k < |piece| :: piece[k] == s[o..o + |piece|][k] == s[o + k];
    }
  }

  lemma PieceCapital(piece: string, s: string, o: nat, i: nat)
    requires o + |piece| <= |s| && At(s, o, piece) && i <= |piece| && !AfterCapital(s, o)
    ensures AfterCapital(piece, i) <==> AfterCapital(s, o + i)
  {
    if i > 0 { assert s[o + i - 1] == s[o..o + |piece|][i - 1] == piece[i - 1]; }
  }

  lemma PieceSearch(r: Regex, piece: string, s: string, o: nat, i: nat, j: nat)
    requires o <= i <= j <= o + |piece| && At(s, o, piece) && !AfterCapital(s, o) && Spans(r, s, i, j)
    ensures Search(r, piece)
  {
    PieceSpans(r, piece, s, o, i - o, j - o);
  }

  lemma PieceFound(r: Regex, piece: string, s: string, o: nat)
    requires At(s, o, piece) && !AfterCapital(s, o) && Search(r, piece)
    ensures Search(r, s)
  {
    var i: nat, j: nat :| i <= j <= |piece| && Spans(r, piece, i, j);
    PieceSpans(r, piece, s, o, i, j);
    assert Spans(r, s, o + i, o + j);
  }

  // A separator neither makes a match nor hides one.
  lemma SearchSplits(r: Regex, a: string, sep: string, b: string)
    requires Plain(r) && Consumes(r) && Separates(sep)
    ensures Search(r, a + sep + b) <==> Search(r, a) || Search(r, b)
  {
    hide Spans, Plain, Consumes;
    var s, o := a + sep + b, |a| + |sep|;
    assert s[..|a|] == a && s[o..] == b && s[o - 1] == sep[|sep| - 1];
    assert At(s, 0, a) && At(s, o, b) && !AfterCapital(s, o);
    if Search(r, a) { PieceFound(r, a, s, 0); }
    if Search(r, b) { PieceFound(r, b, s, o); }
    if i: nat, j: nat :| i <= j <= |s| && Spans(r, s, i, j) {
      MatchIsPlain(r, s, i, j);
      if j <= |a| {
        PieceSearch(r, a, s, 0, i, j);
      } else if i >= o {
        PieceSearch(r, b, s, o, i, j);
      } else {
        var k := if i < |a| then |a| else i;
        assert s[k] == sep[k - |a|];
      }
    }
  }

  // ---- a distribution's licence fields ----

  datatype Dist = Dist(name: Option<string>, version: string, legacy: Option<string>, expression: Option<string>,
                       classifiers: Option<seq<string>>)

  function OrEmpty(s: Option<string>): string { if s.Some? then s.value else "" }

  // The classifiers that start with "License".
  function LicenceOnes(cs: seq<string>): seq<string> {
    if cs == [] then []
    else (if At(cs[0], 0, "License") then [cs[0]] else []) + LicenceOnes(cs[1..])
  }

  function Join(sep: string, xs: seq<string>): string {
    if xs == [] then "" else if |xs| == 1 then xs[0] else xs[0] + sep + Join(sep, xs[1..])
  }

  function Classifiers(d: Dist): seq<string> {
    if d.classifiers.Some? then LicenceOnes(d.classifiers.value) else []
  }

  // `str.upper()`, a character at a time; a character not in the table is its own capital.
  type Casing = map<char, string>

  function Upper(up: Casing, s: string): string {
    if s == "" then "" else (if s[0] in up then up[s[0]] else [s[0]]) + Upper(up, s[1..])
  }

  predicate KeepsSeparators(up: Casing) { forall c | Separator(c) :: c !in up }

  function Blob(up: Casing, d: Dist): string {
    Upper(up, OrEmpty(d.legacy) + " " + OrEmpty(d.expression) + " " + Join(" ; ", Classifiers(d)))
  }

  lemma {:induction false} UpperAppend(up: Casing, a: string, b: string)
    ensures Upper(up, a + b) == Upper(up, a) + Upper(up, b)
  {
    if a == "" {
      assert a + b == b;
    } else {
      assert (a + b)[1..] == a[1..] + b;
      UpperAppend(up, a[1..], b);
    }
  }

  lemma {:induction false} UpperSeparators(up: Casing, sep: string)
    requires KeepsSeparators(up) && forall i | 0 <= i < |sep| :: Separator(sep[i])
    ensures Upper(up, sep) == sep
  {
    if sep != "" {
      UpperSeparators(up, sep[1..]);
      assert Separator(sep[0]);
    }
  }

  lemma UpperSplits(r: Regex, up: Casing, a: string, sep: string, b: string)
    requires Plain(r) && Consumes(r) && KeepsSeparators(up)
    requires Separates(sep)
    ensures Search(r, Upper(up, a + sep + b)) <==> Search(r, Upper(up, a)) || Search(r, Upper(up, b))
  {
    UpperAppend(up, a + sep, b);
    UpperAppend(up, a, sep);
    UpperSeparators(up, sep);
    SearchSplits(r, Upper(up, a), sep, Upper(up, b));
  }

  lemma NothingInNothing(r: Regex)
    requires Plain(r) && Consumes(r)
    ensures !Search(r, "")
  {
    if i: nat, j: nat :| i <= j <= 0 && Spans(r, "", i, j) { MatchIsPlain(r, "", i, j); }
  }

  lemma {:induction false} JoinSearch(r: Regex, up: Casing, sep: string, xs: seq<string>)
    requires Plain(r) && Consumes(r) && KeepsSeparators(up) && Separates(sep)
    ensures Search(r, Upper(up, Join(sep, xs))) <==> exists i :: 0 <= i < |xs| && Search(r, Upper(up, xs[i]))
  {
    hide Search, Plain, Consumes, KeepsSeparators;
    if xs == [] {
      NothingInNothing(r);
    } else if |xs| > 1 {
      hide Upper;
      UpperSplits(r, up, xs[0], sep, Join(sep, xs[1..]));
      JoinSearch(r, up, sep, xs[1..]);
      assert forall i | 1 <= i < |xs| :: xs[i] == xs[1..][i - 1];
    }
  }

  // The classifier starts with the word License.
  predicate IsLicence(c: string) {
    |c| >= 7 && c[0] == 'L' && c[1] == 'i' && c[2] == 'c' && c[3] == 'e' && c[4] == 'n' && c[5] == 's' && c[6] == 'e'
  }

  // One of the texts in which the distribution says what its licence is.
  predicate Declaration(d: Dist, x: string) {
    d.legacy == Some(x) || d.expression == Some(x) || (d.classifiers.Some? && x in d.classifiers.value && IsLicence(x))
  }

  // The pattern is found in one of them taken by itself.
  ghost predicate Declares(r: Regex, up: Casing, d: Dist) {
    exists x :: Declaration(d, x) && Search(r, Upper(up, x))
  }

  lemma {:induction false} LicenceOnesAre(cs: seq<string>)
    ensures forall x :: x in LicenceOnes(cs) <==> x in cs && IsLicence(x)
  {
    if cs != [] {
      LicenceOnesAre(cs[1..]);
      AtByCharacter(cs[0], 0, "License");
      assert cs == [cs[0]] + cs[1..];
      hide At;
    }
  }

  lemma ClassifiersAre(d: Dist)
    ensures forall x :: x in Classifiers(d) <==> d.classifiers.Some? && x in d.classifiers.value && IsLicence(x)
  {
    hide IsLicence, LicenceOnes;
    if d.classifiers.Some? { LicenceOnesAre(d.classifiers.value); }
  }

  ghost predicate SomeHas(r: Regex, up: Casing, xs: seq<string>) {
    exists i :: 0 <= i < |xs| && Search(r, Upper(up, xs[i]))
  }

  lemma FieldSearch(r: Regex, up: Casing, f: Option<string>)
    requires Plain(r) && Consumes(r)
    ensures Search(r, Upper(up, OrEmpty(f))) <==> f.Some? && Search(r, Upper(up, f.value))
  {
    NothingInNothing(r);
    hide Search, Plain, Consumes;
  }

  lemma ClassifierSearch(r: Regex, up: Casing, d: Dist)
    ensures SomeHas(r, up, Classifiers(d)) <==>
      d.classifiers.Some? && exists x :: x in d.classifiers.value && IsLicence(x) && Search(r, Upper(up, x))
  {
    ClassifiersAre(d);
    hide Search, Upper, IsLicence, Classifiers;
    var cs := Classifiers(d);
    if i :| 0 <= i < |cs| && Search(r, Upper(up, cs[i])) { assert cs[i] in cs; }
    if x :| x in cs && Search(r, Upper(up, x)) {
      var i :| 0 <= i < |cs| && cs[i] == x;
    }
  }

  // The same, by the strings the gate joins.
  lemma DeclaresByPart(r: Regex, up: Casing, d: Dist)
    requires Plain(r) && Consumes(r)
    ensures Declares(r, up, d) <==>
      || Search(r, Upper(up, OrEmpty(d.legacy))) || Search(r, Upper(up, OrEmpty(d.expression)))
      || SomeHas(r, up, Classifiers(d))
  {
    FieldSearch(r, up, d.legacy);
    FieldSearch(r, up, d.expression);
    ClassifierSearch(r, up, d);
    hide Search, Upper, Plain, Consumes, Classifiers, IsLicence, SomeHas, OrEmpty;
    if d.legacy.Some? { assert Declaration(d, d.legacy.value); }
    if d.expression.Some? { assert Declaration(d, d.expression.value); }
    if d.classifiers.Some? {
      forall x | x in d.classifiers.value && IsLicence(x) ensures Declaration(d, x) {
      }
    }
  }

  // Searching the joined blob is searching each declaration separately, for any pattern that cannot
  // match a separator or the empty text.
  lemma BlobSearch(r: Regex, up: Casing, d: Dist)
    requires Plain(r) && Consumes(r) && KeepsSeparators(up)
    ensures Search(r, Blob(up, d)) <==> Declares(r, up, d)
  {
    hide Search, Upper, Plain, Consumes, KeepsSeparators, Join;
    var fields := OrEmpty(d.legacy) + " " + OrEmpty(d.expression);
    UpperSplits(r, up, fields, " ", Join(" ; ", Classifiers(d)));
    UpperSplits(r, up, OrEmpty(d.legacy), " ", OrEmpty(d.expression));
    JoinSearch(r, up, " ; ", Classifiers(d));
    DeclaresByPart(r, up, d);
    hide Declares, Classifiers;
  }

  lemma PatternsArePlain()
    ensures Plain(COPYLEFT) && Consumes(COPYLEFT) && Plain(AFFERO) && Consumes(AFFERO)
  {
  }

  // ---- the scan ----

  datatype Entry = Entry(name: string, version: string, evidence: string)

  function NameOf(d: Dist): string { if OrEmpty(d.name) == "" then "<unknown>" else OrEmpty(d.name) }

  function NonEmpty(xs: seq<string>): seq<string> {
    if xs == [] then [] else (if xs[0] == "" then [] else [xs[0]]) + NonEmpty(xs[1..])
  }

  function Fields(d: Dist): seq<string> {
    [OrEmpty(d.legacy), OrEmpty(d.expression), Join(" ; ", Classifiers(d))]
  }

  function Evidence(d: Dist): string { Join("; ", NonEmpty(Fields(d))) }

  function EntryOf(d: Dist): Entry { Entry(NameOf(d), d.version, Evidence(d)) }

  lemma SomeHasAppend(r: Regex, up: Casing, xs: seq<string>, ys: seq<string>)
    ensures SomeHas(r, up, xs + ys) <==> SomeHas(r, up, xs) || SomeHas(r, up, ys)
  {
    hide Search, Upper;
    var zs := xs + ys;
    if i :| 0 <= i < |ys| && Search(r, Upper(up, ys[i])) { assert zs[|xs| + i] == ys[i]; }
    if i :| 0 <= i < |xs| && Search(r, Upper(up, xs[i])) { assert zs[i] == xs[i]; }
  }

  lemma {:induction false} NonEmptySearch(r: Regex, up: Casing, xs: seq<string>)
    requires Plain(r) && Consumes(r)
    ensures SomeHas(r, up, NonEmpty(xs)) <==> SomeHas(r, up, xs)
  {
    hide Search, Plain, Consumes;
    if xs != [] {
      assert Upper(up, "") == "";
      hide Upper;
      NothingInNothing(r);
      NonEmptySearch(r, up, xs[1..]);
      assert xs == [xs[0]] + xs[1..];
      SomeHasAppend(r, up, [xs[0]], xs[1..]);
      SomeHasAppend(r, up, if xs[0] == "" then [] else [xs[0]], NonEmpty(xs[1..]));
      assert xs[0] == "" ==> !SomeHas(r, up, [xs[0]]);
      hide SomeHas;
    }
  }

  // The evidence printed for a distribution shows what it is listed for, and nothing it does not declare.
  lemma EvidenceShowsIt(r: Regex, up: Casing, d: Dist)
    requires Plain(r) && Consumes(r) && KeepsSeparators(up)
    ensures Search(r, Upper(up, Evidence(d))) <==> Declares(r, up, d)
  {
    hide Search, Upper, Plain, Consumes, KeepsSeparators, Join, NonEmpty;
    JoinSearch(r, up, "; ", NonEmpty(Fields(d)));
    NonEmptySearch(r, up, Fields(d));
    JoinSearch(r, up, " ; ", Classifiers(d));
    assert Fields(d)[0] == OrEmpty(d.legacy) && Fields(d)[1] == OrEmpty(d.expression);
    assert Fields(d)[2] == Join(" ; ", Classifiers(d));
    DeclaresByPart(r, up, d);
    hide Declares, Classifiers;
  }

  lemma {:induction false} JoinHolds(sep: string, xs: seq<string>, i: nat)
    requires i < |xs|
    ensures exists o: nat :: At(Join(sep, xs), o, xs[i])
  {
    if |xs| == 1 {
      assert At(Join(sep, xs), 0, xs[i]);
    } else {
      var rest := Join(sep, xs[1..]);
      var all := xs[0] + sep + rest;
      if i == 0 {
        assert all[..|xs[0]|] == xs[0];
        assert all == Join(sep, xs) && At(all, 0, xs[0]);
      } else {
        JoinHolds(sep, xs[1..], i - 1);
        var o: nat :| At(rest, o, xs[1..][i - 1]);
        var k := |xs[0] + sep|;
        assert all[k..] == rest && At(all, k, rest);
        AtWithin(all, k, rest, o, xs[i]);
        assert all == Join(sep, xs) && At(all, k + o, xs[i]);
      }
    }
  }

  lemma {:induction false} NonEmptyHas(xs: seq<string>, x: string)
    requires x in xs && x != ""
    ensures x in NonEmpty(xs)
  {
    if xs[0] != x { NonEmptyHas(xs[1..], x); }
  }

  // And it quotes every declaration in full.
  lemma EvidenceQuotes(d: Dist, x: string)
    requires Declaration(d, x) && x != ""
    ensures exists o: nat :: At(Evidence(d), o, x)
  {
    var fields := Fields(d);
    assert fields[0] == OrEmpty(d.legacy) && fields[1] == OrEmpty(d.expression);
    assert fields[2] == Join(" ; ", Classifiers(d));
    if d.legacy == Some(x) || d.expression == Some(x) {
      EvidenceHolds(d, x);
    } else {
      ClassifiersAre(d);
      hide IsLicence, Classifiers;
      var cs := Classifiers(d);
      var i :| 0 <= i < |cs| && cs[i] == x;
      JoinHolds(" ; ", cs, i);
      var joined := Join(" ; ", cs);
      var o: nat :| At(joined, o, x);
      EvidenceHolds(d, joined);
      var k: nat :| At(Evidence(d), k, joined);
      AtWithin(Evidence(d), k, joined, o, x);
    }
  }

  lemma EvidenceHolds(d: Dist, x: string)
    requires x in Fields(d) && x != ""
    ensures exists o: nat :: At(Evidence(d), o, x)
  {
    hide Join, NonEmpty, Fields;
    NonEmptyHas(Fields(d), x);
    var i :| 0 <= i < |NonEmpty(Fields(d))| && NonEmpty(Fields(d))[i] == x;
    JoinHolds("; ", NonEmpty(Fields(d)), i);
    var o: nat :| At(Join("; ", NonEmpty(Fields(d))), o, NonEmpty(Fields(d))[i]);
    assert At(Evidence(d), o, x);
  }

  lemma AtWithin(s: string, k: nat, t: string, o: nat, x: string)
    requires At(s, k, t) && At(t, o, x)
    ensures At(s, k + o, x)
  {
    AtByCharacter(s, k, t);
    AtByCharacter(t, o, x);
    AtByCharacter(s, k + o, x);
    hide At;
    forall i | 0 <= i < |x| ensures s[k + o + i] == x[i] { assert t[o + i] == x[i]; }
  }

  // The distribution goes by this name: its own, or the placeholder where it has none.
  ghost predicate GoesBy(d: Dist, name: string) {
    if d.name == None || d.name == Some("") then name == "<unknown>" else d.name == Some(name)
  }

  ghost predicate Allowed(allow: set<string>, d: Dist) {
    exists name :: GoesBy(d, name) && name in allow
  }

  lemma NameIs(d: Dist, allow: set<string>)
    ensures GoesBy(d, NameOf(d)) && (Allowed(allow, d) <==> NameOf(d) in allow)
  {
    assert GoesBy(d, NameOf(d));
  }

  // The entry has the distribution's name and version, and its evidence.
  ghost predicate IsEntry(e: Entry, d: Dist) {
    GoesBy(d, e.name) && e.version == d.version && e.evidence == Evidence(d)
  }

  // On which of the two lists a distribution belongs, if on any.
  ghost predicate Belongs(up: Casing, allow: set<string>, d: Dist, affero: bool) {
    !Allowed(allow, d) && Declares(COPYLEFT, up, d) && (Declares(AFFERO, up, d) <==> affero)
  }

  // `entries` are those of exactly the distributions that belong, at the positions `at`, in their order.
  ghost predicate Lists(up: Casing, allow: set<string>, dists: seq<Dist>, affero: bool, at: seq<nat>,
                        entries: seq<Entry>)
  {
    && |at| == |entries|
    && (forall k | 0 <= k < |at| :: at[k] < |dists| && IsEntry(entries[k], dists[at[k]]))
    && (forall k, l | 0 <= k < l < |at| :: at[k] < at[l])
    && (forall i: nat | i < |dists| :: i in at <==> Belongs(up, allow, dists[i], affero))
  }

  lemma EntryIs(d: Dist)
    ensures IsEntry(EntryOf(d), d)
  {
    NameIs(d, {});
  }

  lemma ListsNext(up: Casing, allow: set<string>, dists: seq<Dist>, affero: bool, at: seq<nat>,
                  entries: seq<Entry>, n: nat)
    requires n < |dists| && Lists(up, allow, dists[..n], affero, at, entries)
    ensures if Belongs(up, allow, dists[n], affero)
            then Lists(up, allow, dists[..n + 1], affero, at + [n], entries + [EntryOf(dists[n])])
            else Lists(up, allow, dists[..n + 1], affero, at, entries)
  {
    hide Belongs, EntryOf, IsEntry;
    EntryIs(dists[n]);
    var next := dists[..n + 1];
    assert forall i: nat | i < n :: next[i] == dists[..n][i];
    assert forall i: nat | i in at :: i < n;
    if Belongs(up, allow, dists[n], affero) {
      assert forall i: nat | i < n :: i in at + [n] <==> i in at;
      assert n in at + [n];
    }
  }

  // One of the two lists a scan returns.
  ghost predicate Listing(up: Casing, allow: set<string>, dists: seq<Dist>, affero: bool, entries: seq<Entry>) {
    exists at: seq<nat> :: Lists(up, allow, dists, affero, at, entries)
  }

  method Scan(up: Casing, allow: set<string>, dists: seq<Dist>) returns (affero: seq<Entry>, gpl: seq<Entry>)
    requires KeepsSeparators(up)
    ensures Listing(up, allow, dists, true, affero) && Listing(up, allow, dists, false, gpl)
  {
    hide Search, Declares, Plain, Consumes, KeepsSeparators, Lists, Blob, EntryOf, NameOf, Allowed;
    affero, gpl := [], [];
    ghost var afferoAt: seq<nat>, gplAt: seq<nat> := [], [];
    NothingListed(up, allow);
    PatternsArePlain();
    for n := 0 to |dists|
      invariant Lists(up, allow, dists[..n], true, afferoAt, affero) && Lists(up, allow, dists[..n], false, gplAt, gpl)
    {
      var d := dists[n];
      NameIs(d, allow);
      BlobSearch(COPYLEFT, up, d);
      BlobSearch(AFFERO, up, d);
      ListsNext(up, allow, dists, true, afferoAt, affero, n);
      ListsNext(up, allow, dists, false, gplAt, gpl, n);
      if NameOf(d) in allow { continue; }
      if !Search(COPYLEFT, Blob(up, d)) { continue; }
      if Search(AFFERO, Blob(up, d)) {
        affero, afferoAt := affero + [EntryOf(d)], afferoAt + [n];
      } else {
        gpl, gplAt := gpl + [EntryOf(d)], gplAt + [n];
      }
    }
    assert dists[..|dists|] == dists;
    assert Lists(up, allow, dists, true, afferoAt, affero) && Lists(up, allow, dists, false, gplAt, gpl);
  }

  lemma NothingListed(up: Casing, allow: set<string>)
    ensures Lists(up, allow, [], true, [], []) && Lists(up, allow, [], false, [], [])
  {
  }

  // No distribution is on both lists, and each is on one exactly if it is not allowed and declares a
  // copyleft licence, or an Affero one, somewhere.
  lemma ListsPartition(up: Casing, allow: set<string>, dists: seq<Dist>, affero: seq<Entry>, gpl: seq<Entry>,
                       afferoAt: seq<nat>, gplAt: seq<nat>, i: nat)
    requires Lists(up, allow, dists, true, afferoAt, affero) && Lists(up, allow, dists, false, gplAt, gpl)
    requires i < |dists|
    ensures !(i in afferoAt && i in gplAt)
    ensures i in afferoAt <==> !Allowed(allow, dists[i]) && Declares(AFFERO, up, dists[i])
    ensures i in afferoAt || i in gplAt <==> !Allowed(allow, dists[i]) && Declares(COPYLEFT, up, dists[i])
  {
    hide Allowed, Declares, IsEntry;
    if Declares(AFFERO, up, dists[i]) { AfferoDeclaresCopyleft(up, dists[i]); }
  }

  // What is on a list leaves no choice: not which entries, not how often, not their order.
  lemma ListingIsUnique(up: Casing, allow: set<string>, dists: seq<Dist>, affero: bool, a: seq<Entry>, b: seq<Entry>)
    requires Listing(up, allow, dists, affero, a) && Listing(up, allow, dists, affero, b)
    ensures a == b
  {
    hide Belongs, Evidence;
    var aAt: seq<nat> :| Lists(up, allow, dists, affero, aAt, a);
    var bAt: seq<nat> :| Lists(up, allow, dists, affero, bAt, b);
    forall i: nat ensures i in aAt <==> i in bAt {
      if i >= |dists| { assert i !in aAt && i !in bAt; }
    }
    SameIncreasing(aAt, bAt);
  }

  lemma {:induction false} SameIncreasing(a: seq<nat>, b: seq<nat>)
    requires forall k, l | 0 <= k < l < |a| :: a[k] < a[l]
    requires forall k, l | 0 <= k < l < |b| :: b[k] < b[l]
    requires forall i: nat :: i in a <==> i in b
    ensures a == b
  {
    HasAMember(a);
    HasAMember(b);
    if a != [] && b != [] {
      var (m, n) := (|a| - 1, |b| - 1);
      assert a[m] in b && b[n] in a;
      assert a[m] == b[n];
      forall i: nat ensures i in a[..m] <==> i in b[..n] {
        if i in a[..m] { assert i in b && i != b[n]; }
        if i in b[..n] { assert i in a && i != a[m]; }
      }
      SameIncreasing(a[..m], b[..n]);
    }
  }

  lemma HasAMember(a: seq<nat>)
    ensures a != [] ==> exists i: nat :: i in a
  {
    if a != [] { assert a[0] in a; }
  }

  lemma AfferoDeclaresCopyleft(up: Casing, d: Dist)
    requires Declares(AFFERO, up, d)
    ensures Declares(COPYLEFT, up, d)
  {
    hide Search, Upper, Declaration;
    forall s | Search(AFFERO, s) ensures Search(COPYLEFT, s) { AfferoIsCopyleft(s); }
  }

  ghost predicate Fails(up: Casing, allow: set<string>, dists: seq<Dist>) {
    exists i :: 0 <= i < |dists| && !Allowed(allow, dists[i]) && Declares(COPYLEFT, up, dists[i])
  }

  // The exit status: 1 exactly if some distribution that is not allowed declares a copyleft licence.
  method ExitStatus(up: Casing, allow: set<string>, dists: seq<Dist>, list: bool) returns (code: int)
    requires KeepsSeparators(up)
    ensures code == 0 || code == 1
    ensures code == 1 <==> !list && Fails(up, allow, dists)
  {
    if list { return 0; }
    var affero, gpl := Scan(up, allow, dists);
    ghost var afferoAt: seq<nat> :| Lists(up, allow, dists, true, afferoAt, affero);
    ghost var gplAt: seq<nat> :| Lists(up, allow, dists, false, gplAt, gpl);
    forall i | 0 <= i < |dists|
      ensures i in afferoAt || i in gplAt <==> !Allowed(allow, dists[i]) && Declares(COPYLEFT, up, dists[i])
    {
      ListsPartition(up, allow, dists, affero, gpl, afferoAt, gplAt, i);
    }
    hide Allowed, Declares, Belongs, KeepsSeparators, IsEntry;
    if affero != [] { assert afferoAt[0] in afferoAt; }
    if gpl != [] { assert gplAt[0] in gplAt; }
    return if affero != [] || gpl != [] then 1 else 0;
  }

  // ---- what the gate does not see ----

  // No G is followed by a P, and no A by an F.
  predicate NoPairs(s: string) {
    forall i | 0 <= i < |s| - 1 :: !(s[i] == 'G' && s[i + 1] == 'P') && !(s[i] == 'A' && s[i + 1] == 'F')
  }

  lemma WithoutThePairs(s: string)
    requires NoPairs(s)
    ensures !Search(COPYLEFT, s)
  {
    CopyleftExactly(s);
    hide Search, At, OpensAWord;
    var gpl, affero := "GPL", "AFFERO";
    assert gpl[0] == 'G' && gpl[1] == 'P' && affero[0] == 'A' && affero[1] == 'F';
    forall i: nat ensures !At(s, i, gpl) && !At(s, i, affero) {
      AtByCharacter(s, i, gpl);
      AtByCharacter(s, i, affero);
    }
  }

  // Distributions that abbreviate no licence in any of their declarations pass, whatever they are.
  lemma UnabbreviatedPasses(up: Casing, allow: set<string>, dists: seq<Dist>)
    requires forall d, x | d in dists && Declaration(d, x) :: NoPairs(Upper(up, x))
    ensures !Fails(up, allow, dists)
  {
    hide Search, Upper, NoPairs, Declaration, Allowed;
    forall i | 0 <= i < |dists| ensures !Declares(COPYLEFT, up, dists[i]) {
      forall x | Declaration(dists[i], x) ensures !Search(COPYLEFT, Upper(up, x)) { WithoutThePairs(Upper(up, x)); }
    }
  }

  function Cap(c: char): char { if 'a' <= c <= 'z' then (c as int - 32) as char else c }

  // The table has every small letter, and no other ASCII character.
  ghost predicate CapitalisesAscii(up: Casing) {
    forall c | c < 128 as char :: if 'a' <= c <= 'z' then c in up && up[c] == [Cap(c)] else c !in up
  }

  lemma {:induction false} UpperAscii(up: Casing, s: string)
    requires CapitalisesAscii(up) && forall i | 0 <= i < |s| :: s[i] < 128 as char
    ensures |Upper(up, s)| == |s| && forall i | 0 <= i < |s| :: Upper(up, s)[i] == Cap(s[i])
  {
    hide CapitalisesAscii, Cap;
    if s != "" {
      var t := s[1..];
      assert forall i | 0 <= i < |t| :: t[i] == s[i + 1];
      UpperAscii(up, t);
      assert Upper(up, s) == [Cap(s[0])] + Upper(up, t) by { OneCapital(up, s[0]); }
    }
  }

  lemma OneCapital(up: Casing, c: char)
    requires CapitalisesAscii(up) && c < 128 as char
    ensures (if c in up then up[c] else [c]) == [Cap(c)]
  {
  }

  // The licence by its full name, in any letter case, is such a declaration: the gate does not see it.
  lemma FullNameIsNotSeen(up: Casing, allow: set<string>, dists: seq<Dist>, name: string)
    requires CapitalisesAscii(up) && |name| == |FULL_NAME| && forall i | 0 <= i < |name| :: Cap(name[i]) == FULL_NAME[i]
    requires forall d, x | d in dists && Declaration(d, x) :: x == "" || x == name
    ensures !Fails(up, allow, dists)
  {
    hide Fails, Declaration, CapitalisesAscii;
    forall d, x | d in dists && Declaration(d, x) ensures NoPairs(Upper(up, x)) {
      assert x == "" || x == name;
      FullNameHasNoPairs(up, name);
      assert Upper(up, "") == "";
    }
    hide Upper, NoPairs;
    UnabbreviatedPasses(up, allow, dists);
  }

  const FULL_NAME := "GNU GENERAL PUBLIC LICENSE"

  lemma FullNameHasNoPairs(up: Casing, name: string)
    requires CapitalisesAscii(up) && |name| == |FULL_NAME| && forall i | 0 <= i < |name| :: Cap(name[i]) == FULL_NAME[i]
    ensures NoPairs(Upper(up, name))
  {
    hide CapitalisesAscii;
    var full := FULL_NAME;
    assert forall i | 0 <= i < |full| - 1 :: full[i] == 'G' ==> full[i + 1] != 'P';
    assert forall i | 0 <= i < |full| - 1 :: full[i] == 'A' ==> full[i + 1] != 'F';
    assert forall i | 0 <= i < |name| :: name[i] < 128 as char by {
      forall i | 0 <= i < |name| ensures name[i] < 128 as char { assert full[i] < 128 as char; }
    }
    UpperAscii(up, name);
  }
}
