// Platform target URLs: fastaiagent/client.py, `_normalize_target`.
module Target {
  import opened Options

  datatype Normalized = Accepted(url: string) | NoScheme | BadScheme(scheme: string)

  // The characters `str.strip()` removes.
  predicate IsSpace(c: char) {
    var n := c as int;
    9 <= n <= 13 || 28 <= n <= 32 || n == 0x85 || n == 0xA0 || n == 0x1680 || 0x2000 <= n <= 0x200A
    || n == 0x2028 || n == 0x2029 || n == 0x202F || n == 0x205F || n == 0x3000
  }

  lemma AsciiSpaces(c: char)
    requires c as int < 128
    ensures IsSpace(c) <==> c in " \t\n\r" || c as int in {11, 12, 28, 29, 30, 31}
  {
  }

  // What a trim removes: white space, or slashes.
  datatype Junk = Space | Slash

  predicate Is(p: Junk, c: char) {
    match p case Space => IsSpace(c) case Slash => c == '/'
  }

  ghost predicate All(s: string, p: Junk) {
    forall i | 0 <= i < |s| :: Is(p, s[i])
  }

  function TrimLeft(s: string, p: Junk): (r: string)
    ensures |r| <= |s| && r == s[|s| - |r|..]
    ensures All(s[..|s| - |r|], p)
    ensures r != "" ==> !Is(p, r[0])
  {
    if s != "" && Is(p, s[0]) then TrimLeft(s[1..], p) else s
  }

  function TrimRight(s: string, p: Junk): (r: string)
    ensures |r| <= |s| && r == s[..|r|]
    ensures All(s[|r|..], p)
    ensures r != "" ==> !Is(p, r[|r| - 1])
  {
    if s != "" && Is(p, s[|s| - 1]) then
      var r := TrimRight(s[..|s| - 1], p);
      assert forall i | |r| <= i < |s| - 1 :: s[i] == s[..|s| - 1][|r|..][i - |r|];
      r
    else s
  }

  function Strip(s: string): string {
    TrimRight(TrimLeft(s, Space), Space)
  }

  // What is left of a target once it is stripped and its trailing slashes are gone.
  function Core(target: string): string {
    TrimRight(Strip(target), Slash)
  }

  function LowerChar(c: char): char {
    if 'A' <= c <= 'Z' then (c as int + 32) as char else c
  }

  function Lower(s: string): string {
    seq(|s|, i requires 0 <= i < |s| => LowerChar(s[i]))
  }

  predicate SeparatorAt(t: string, i: nat) {
    i + 3 <= |t| && t[i] == ':' && t[i + 1] == '/' && t[i + 2] == '/'
  }

  // The first "://" at or after `i`.
  function SchemeEnd(t: string, i: nat := 0): (k: Option<nat>)
    requires i <= |t|
    ensures k.Some? ==> i <= k.value && SeparatorAt(t, k.value)
    ensures forall j: nat | i <= j && (k.Some? ==> j < k.value) :: !SeparatorAt(t, j)
    decreases |t| - i
  {
    if i + 3 > |t| then None
    else if SeparatorAt(t, i) then Some(i)
    else SchemeEnd(t, i + 1)
  }

  function Normalize(target: string): Normalized {
    Classify(Core(target))
  }

  function Classify(t: string): Normalized {
    if t == "" then Accepted(t)
    else match SchemeEnd(t)
      case None => NoScheme
      case Some(k) =>
        var scheme := Lower(t[..k]);
        if scheme == "http" || scheme == "https" then Accepted(t) else BadScheme(scheme)
  }

  // ---- an independent reading of the same rule ----

  // `x` is `url` between white space, with any slashes after `url` cut off.
  ghost predicate Splits(x: string, lead: string, url: string, slashes: string, trail: string) {
    && x == lead + url + slashes + trail
    && All(lead, Space) && All(trail, Space) && All(slashes, Slash)
    && (url != "" ==> !Is(Space, url[0]) && !Is(Slash, url[|url| - 1]))
    && (url != "" && slashes == "" ==> !Is(Space, url[|url| - 1]))
  }

  // The same word, each letter small or capital.
  ghost predicate Spelt(s: string, small: string, capital: string) {
    |s| == |small| == |capital| && forall i | 0 <= i < |s| :: s[i] == small[i] || s[i] == capital[i]
  }

  ghost predicate HasHttpScheme(url: string) {
    || (SeparatorAt(url, 4) && Spelt(url[..4], "http", "HTTP"))
    || (SeparatorAt(url, 5) && Spelt(url[..5], "https", "HTTPS"))
  }

  lemma LowerIs(s: string, small: string, capital: string)
    requires |small| == |capital|
    requires forall i | 0 <= i < |small| :: 'A' <= capital[i] <= 'Z' && small[i] as int == capital[i] as int + 32
    ensures Lower(s) == small <==> Spelt(s, small, capital)
  {
    if Lower(s) == small {
      assert |Lower(s)| == |s|;
      forall i | 0 <= i < |s| ensures s[i] == small[i] || s[i] == capital[i] { assert Lower(s)[i] == LowerChar(s[i]); }
    }
  }

  // `word` is `x` without the white space around it.
  ghost predicate Trims(x: string, lead: string, word: string, trail: string) {
    && x == lead + word + trail && All(lead, Space) && All(trail, Space)
    && (word != "" ==> !Is(Space, word[0]) && !Is(Space, word[|word| - 1]))
  }

  lemma TrimIsStrip(x: string, lead: string, word: string, trail: string)
    requires Trims(x, lead, word, trail)
    ensures Strip(x) == word
  {
    if word == "" {
      assert x == (lead + trail) + "";
      TrimLeftStops(lead + trail, "", Space);
    } else {
      assert x == lead + (word + trail);
      TrimLeftStops(lead, word + trail, Space);
      TrimRightStops(word, trail, Space);
    }
  }

  lemma TwoTrims(x: string, l: string, s: string)
    requires |l| <= |x| && l == x[|x| - |l|..] && All(x[..|x| - |l|], Space) && (l != "" ==> !Is(Space, l[0]))
    requires |s| <= |l| && s == l[..|s|] && All(l[|s|..], Space) && (s != "" ==> !Is(Space, s[|s| - 1]))
    ensures Trims(x, x[..|x| - |l|], s, l[|s|..])
  {
    hide IsSpace;
    var lead, trail := x[..|x| - |l|], l[|s|..];
    assert lead + s + trail == lead + (s + trail) == x;
  }

  lemma StripTrims(x: string) returns (lead: string, trail: string)
    ensures Trims(x, lead, Strip(x), trail)
  {
    hide IsSpace, Trims, TrimLeft, TrimRight;
    var l := TrimLeft(x, Space);
    var s := TrimRight(l, Space);
    TwoTrims(x, l, s);
    return x[..|x| - |l|], l[|s|..];
  }

  // The text says "closed", in any letter case and with any white space around it.
  ghost predicate AsksClosed(text: string) {
    exists lead, word, trail :: Trims(text, lead, word, trail) && Spelt(word, "closed", "CLOSED")
  }

  lemma AsksClosedExactly(text: string)
    ensures AsksClosed(text) <==> Lower(Strip(text)) == "closed"
  {
    hide Strip, Lower, Trims, Spelt;
    LowerIs(Strip(text), "closed", "CLOSED");
    var lead, trail := StripTrims(text);
    forall l, word, t | Trims(text, l, word, t) ensures word == Strip(text) { TrimIsStrip(text, l, word, t); }
  }

  lemma {:induction false} TrimLeftStops(a: string, b: string, p: Junk)
    requires All(a, p) && (b != "" ==> !Is(p, b[0]))
    ensures TrimLeft(a + b, p) == b
  {
    if a == "" {
      assert a + b == b;
    } else {
      assert Is(p, (a + b)[0]);
      assert (a + b)[1..] == a[1..] + b;
      TrimLeftStops(a[1..], b, p);
    }
  }

  lemma {:induction false} TrimRightStops(a: string, b: string, p: Junk)
    requires All(b, p) && (a != "" ==> !Is(p, a[|a| - 1]))
    ensures TrimRight(a + b, p) == a
  {
    if b == "" {
      assert a + b == a;
    } else {
      assert (a + b)[|a + b| - 1] == b[|b| - 1];
      assert (a + b)[..|a + b| - 1] == a + b[..|b| - 1];
      TrimRightStops(a, b[..|b| - 1], p);
    }
  }

  // Each trim leaves a suffix or a prefix; together they split the input.
  lemma TrimsSplit(x: string, l: string, s: string, url: string)
    requires |l| <= |x| && l == x[|x| - |l|..] && All(x[..|x| - |l|], Space) && (l != "" ==> !Is(Space, l[0]))
    requires |s| <= |l| && s == l[..|s|] && All(l[|s|..], Space) && (s != "" ==> !Is(Space, s[|s| - 1]))
    requires |url| <= |s| && url == s[..|url|] && All(s[|url|..], Slash) && (url != "" ==> !Is(Slash, url[|url| - 1]))
    ensures Splits(x, x[..|x| - |l|], url, s[|url|..], l[|s|..])
  {
    var lead, slashes, trail := x[..|x| - |l|], s[|url|..], l[|s|..];
    assert lead + url + slashes + trail == lead + (url + slashes + trail) == lead + (s + trail) == x;
  }

  lemma {:induction false} CoreSplits(x: string) returns (lead: string, slashes: string, trail: string)
    ensures Splits(x, lead, Core(x), slashes, trail)
  {
    hide IsSpace, Splits, TrimLeft, TrimRight;
    var l := TrimLeft(x, Space);
    var s := TrimRight(l, Space);
    var url := TrimRight(s, Slash);
    TrimsSplit(x, l, s, url);
    return x[..|x| - |l|], s[|url|..], l[|s|..];
  }

  lemma {:induction false} SplitIsCore(x: string, lead: string, url: string, slashes: string, trail: string)
    requires Splits(x, lead, url, slashes, trail)
    ensures Core(x) == url
  {
    var body := url + slashes;
    if body == "" {
      assert x == lead + trail && x + "" == x;
      TrimLeftStops(x, "", Space);
    } else {
      assert x == lead + (body + trail);
      assert !Is(Space, body[0]) && !Is(Space, body[|body| - 1]);
      TrimLeftStops(lead, body + trail, Space);
      TrimRightStops(body, trail, Space);
      TrimRightStops(url, slashes, Slash);
    }
  }

  // The scheme text before the first "://" is http or https exactly when the URL starts that way:
  // neither word contains a ':'.
  lemma SchemeIsFirst(url: string)
    ensures HasHttpScheme(url) <==> SchemeEnd(url).Some? && Lower(url[..SchemeEnd(url).value]) in {"http", "https"}
  {
    if SeparatorAt(url, 4) { LowerIs(url[..4], "http", "HTTP"); }
    if SeparatorAt(url, 5) { LowerIs(url[..5], "https", "HTTPS"); }
    hide Spelt, LowerChar;
    if SeparatorAt(url, 4) && Lower(url[..4]) == "http" { FirstAt(url, "http"); }
    if SeparatorAt(url, 5) && Lower(url[..5]) == "https" { FirstAt(url, "https"); }
    var k := SchemeEnd(url);
    if k.Some? { assert |Lower(url[..k.value])| == k.value; }
  }

  lemma FirstAt(url: string, scheme: string)
    requires SeparatorAt(url, |scheme|) && Lower(url[..|scheme|]) == scheme
    requires forall i | 0 <= i < |scheme| :: scheme[i] != ':'
    ensures SchemeEnd(url) == Some(|scheme|)
  {
    forall j: nat | j < |scheme| ensures !SeparatorAt(url, j) {
      assert Lower(url[..|scheme|])[j] == scheme[j] == LowerChar(url[j]);
    }
  }

  // Acceptance, both ways and for every reading of the input: a target is accepted exactly when what
  // is left between the white space and the trailing slashes is empty or starts with http:// or
  // https:// in any case, and what is accepted is that part unchanged.
  lemma AcceptsExactly(x: string, lead: string, url: string, slashes: string, trail: string)
    requires Splits(x, lead, url, slashes, trail)
    ensures Normalize(x).Accepted? <==> url == "" || HasHttpScheme(url)
    ensures Normalize(x).Accepted? ==> Normalize(x).url == url
  {
    SplitIsCore(x, lead, url, slashes, trail);
    SchemeIsFirst(url);
  }

  // What is refused, and as what: no "://" at all, or another scheme before the first one.
  lemma RefusedExactly(x: string, lead: string, url: string, slashes: string, trail: string)
    requires Splits(x, lead, url, slashes, trail)
    ensures Normalize(x).NoScheme? <==> url != "" && forall i: nat :: !SeparatorAt(url, i)
    ensures Normalize(x).BadScheme? ==> exists k: nat ::
      SeparatorAt(url, k) && (forall j: nat | j < k :: !SeparatorAt(url, j)) && Normalize(x).scheme == Lower(url[..k])
  {
    SplitIsCore(x, lead, url, slashes, trail);
    hide Lower;
    var k := SchemeEnd(url);
    if k.Some? { assert SeparatorAt(url, k.value); }
  }

  // A non-empty accepted target has something after "://" and no trailing slash.
  lemma AcceptedHasHost(x: string)
    requires Normalize(x).Accepted? && Normalize(x).url != ""
    ensures var url := Normalize(x).url;
            HasHttpScheme(url) && url[|url| - 1] != '/' && SchemeEnd(url).value + 3 < |url|
  {
    hide Core;
    SchemeIsFirst(Core(x));
    AcceptedEnd(x);
  }

  lemma {:induction false} AcceptedEnd(x: string)
    ensures Core(x) != "" ==> Core(x)[|Core(x)| - 1] != '/'
  {
  }

  ghost predicate EndsInSpace(s: string) {
    s != "" && Is(Space, s[|s| - 1])
  }

  // White space directly before the trailing slashes of a stripped target.
  ghost predicate SpaceBeforeSlashes(s: string) {
    exists i {:trigger s[i]} :: 0 <= i < |s| && Is(Space, s[i]) && All(s[i + 1..], Slash)
  }

  lemma {:induction false} SpaceThenSlashes(s: string)
    ensures SpaceBeforeSlashes(s) <==> EndsInSpace(TrimRight(s, Slash))
  {
    var url := TrimRight(s, Slash);
    var n := |url|;
    assert All(s[n..], Slash);
    if EndsInSpace(url) {
      assert Is(Space, s[n - 1]) && s[n - 1 + 1..] == s[n..];
    }
    forall i | 0 <= i < |s| && Is(Space, s[i]) && All(s[i + 1..], Slash)
      ensures i == n - 1
    {
    }
  }

  lemma {:induction false} CoreOfCore(url: string)
    requires url != "" && !Is(Space, url[0]) && !Is(Slash, url[|url| - 1])
    ensures if EndsInSpace(url) then |Core(url)| < |url| else Core(url) == url
  {
    TrimLeftStops("", url, Space);
    assert "" + url == url;
    var s := TrimRight(url, Space);
    if EndsInSpace(url) {
      assert |s| < |url|;
    } else {
      assert Splits(url, "", url, "", "");
      SplitIsCore(url, "", url, "", "");
    }
  }

  // Normalising twice is normalising once, except for a target with white space directly before its
  // trailing slashes: the second pass strips that white space as well.
  lemma NormalizeTwice(x: string)
    requires Normalize(x).Accepted?
    ensures Normalize(Normalize(x).url) == Normalize(x) <==> !SpaceBeforeSlashes(Strip(x))
  {
    SpaceThenSlashes(Strip(x));
    CoreTwice(x);
    AcceptedUnchanged(Core(x));
    AcceptedUnchanged(Core(Core(x)));
  }

  lemma AcceptedUnchanged(t: string)
    ensures Classify(t).Accepted? ==> Classify(t).url == t
  {
  }

  lemma {:induction false} CoreTwice(x: string)
    ensures if EndsInSpace(Core(x)) then |Core(Core(x))| < |Core(x)| else Core(Core(x)) == Core(x)
  {
    var url := Core(x);
    if url != "" {
      var _, _, _ := CoreSplits(x);
      CoreOfCore(url);
    } else {
      SplitIsCore(url, "", url, "", "");
    }
  }

  lemma TrailingSlashCut(once: string)
    requires once != "" && !Is(Space, once[0]) && !Is(Slash, once[|once| - 1])
    ensures Core(once + "/") == once
  {
    assert Splits(once + "/", "", once, "/", "");
    SplitIsCore(once + "/", "", once, "/", "");
  }

  lemma SlashesAndSpaceCut(twice: string)
    requires twice != "" && !Is(Space, twice[0]) && !Is(Slash, twice[|twice| - 1])
    ensures Core(twice + "// ") == twice
  {
    assert twice + "// " == "" + twice + "//" + " ";
    SplitIsCore(twice + "// ", "", twice, "//", " ");
  }

  // A concrete target that is accepted, "http:// /", and whose normal form is then refused.
  lemma SpacedTargetAccepted(form: string)
    requires form == "http:// "
    ensures Normalize(form + "/") == Accepted(form)
  {
    TrailingSlashCut(form);
    assert form[..4] == "http" && SeparatorAt(form, 4) && Spelt(form[..4], "http", "HTTP");
    SchemeIsFirst(form);
  }

  lemma SpacedFormRefused(form: string, core: string)
    requires form == core + "// " && core == "http:"
    ensures Normalize(form) == NoScheme
  {
    SlashesAndSpaceCut(core);
    assert forall i: nat :: !SeparatorAt(core, i);
  }
}
