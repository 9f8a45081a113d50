/**
 Names of ManifestWorks: an object name is kept when it is a DNS-1123 subdomain, and is
 otherwise rewritten into a DNS-1123 label (host name syntax, section 2.1 of RFC 1123, as
 Kubernetes applies it).

 Lower-casing is an arbitrary map of characters in all statements about `Sanitize`.
 */
module WorkNames {

  // ------------------------------------------------------------------ the grammar

  predicate IsAlnum(c: char) {
    'a' <= c <= 'z' || '0' <= c <= '9'
  }

  predicate IsLabelChar(c: char) {
    IsAlnum(c) || c == '-'
  }

  predicate IsLabel(s: string) {
    && |s| > 0
    && (forall i :: 0 <= i < |s| ==> IsLabelChar(s[i]))
    && IsAlnum(s[0]) && IsAlnum(s[|s| - 1])
  }

  function SplitAtDots(s: string): (parts: seq<string>)
    ensures |parts| > 0
  {
    if s == [] then [[]]
    else
      var rest := SplitAtDots(s[1..]);
      if s[0] == '.' then [[]] + rest else [[s[0]] + rest[0]] + rest[1..]
  }

  predicate IsSubdomain(s: string) {
    |s| <= 253 && forall part :: part in SplitAtDots(s) ==> IsLabel(part)
  }

  predicate NoDoubleDash(s: string) {
    forall i :: 0 <= i < |s| - 1 ==> !(s[i] == '-' && s[i + 1] == '-')
  }

  // ------------------------------------------------------------------ the rewriting

  const FALLBACK := "manifestwork"
  const MAX_LABEL: nat := 63

  function DashFor(c: char): char {
    if c == '_' || c == '.' || c == '/' then '-' else c
  }

  function Lowered(name: string, lower: char -> char): (s: string)
    ensures |s| == |name|
  {
    seq(|name|, i requires 0 <= i < |name| => DashFor(lower(name[i])))
  }

  /** What the loop appends while it reads `s`: letters and digits as they are, one dash for anything else in a row. */
  function Squeeze(s: string, lastDash: bool): string
    decreases s
  {
    if s == [] then []
    else if IsAlnum(s[0]) then [s[0]] + Squeeze(s[1..], false)
    else if lastDash then Squeeze(s[1..], true)
    else "-" + Squeeze(s[1..], true)
  }

  function TrimLeft(s: string): string {
    if s != [] && s[0] == '-' then TrimLeft(s[1..]) else s
  }

  function TrimRight(s: string): string {
    if s != [] && s[|s| - 1] == '-' then TrimRight(s[..|s| - 1]) else s
  }

  function Trim(s: string): string {
    TrimRight(TrimLeft(s))
  }

  function Shorten(s: string): string {
    if s == [] then FALLBACK
    else
      var cut := if |s| > MAX_LABEL then Trim(s[..MAX_LABEL]) else s;
      if cut == [] then FALLBACK else cut
  }

  function Sanitize(name: string, lower: char -> char): string {
    if IsSubdomain(name) then name else Shorten(Trim(Squeeze(Lowered(name, lower), false)))
  }

  /** As far as the rewriting can tell apart, lower-casing is this map: two runes outside ASCII have ASCII lower
      case. */
  function LowerRune(c: char): char {
    if 'A' <= c <= 'Z' then (c as int - 'A' as int + 'a' as int) as char
    else if c == '\U{0130}' then 'i'
    else if c == '\U{212A}' then 'k'
    else c
  }

  /** One character of the loop. */
  lemma SqueezeStep(built: string, s: string, i: nat, lastDash: bool)
    requires i < |s|
    ensures built + Squeeze(s[i..], lastDash) ==
            if IsAlnum(s[i]) then (built + [s[i]]) + Squeeze(s[i + 1..], false)
            else if lastDash then built + Squeeze(s[i + 1..], true)
            else (built + "-") + Squeeze(s[i + 1..], true)
  {
    assert s[i..][1..] == s[i + 1..];
    assert built + ([s[i]] + Squeeze(s[i + 1..], false)) == (built + [s[i]]) + Squeeze(s[i + 1..], false);
    assert built + ("-" + Squeeze(s[i + 1..], true)) == (built + "-") + Squeeze(s[i + 1..], true);
  }

  method SanitizeManifestWorkName(name: string, lower: char -> char) returns (result: string)
    ensures result == Sanitize(name, lower)
  {
    if IsSubdomain(name) {
      return name;
    }
    var sanitized := Lowered(name, lower);
    var builder := "";
    var lastDash := false;
    for i := 0 to |sanitized|
      invariant builder + Squeeze(sanitized[i..], lastDash) == Squeeze(sanitized, false)
    {
      var r := sanitized[i];
      SqueezeStep(builder, sanitized, i, lastDash);
      var isAllowed := IsLabelChar(r);
      if !isAllowed {
        if !lastDash {
          builder := builder + "-";
          lastDash := true;
        }
        continue;
      }
      if r == '-' && lastDash {
        continue;
      }
      builder := builder + [r];
      lastDash := r == '-';
    }
    assert sanitized[|sanitized|..] == "";
    result := Trim(builder);
    assert builder == Squeeze(sanitized, false);
    if result == "" {
      return FALLBACK;
    }
    if |result| > MAX_LABEL {
      result := Trim(result[..MAX_LABEL]);
    }
    if result == "" {
      return FALLBACK;
    }
  }

  // ------------------------------------------------------------------ the reference: words joined by dashes

  function RunLength(s: string): (n: nat)
    ensures n <= |s|
    ensures forall i :: 0 <= i < n ==> IsAlnum(s[i])
    ensures n < |s| ==> !IsAlnum(s[n])
  {
    if s == [] || !IsAlnum(s[0]) then 0 else 1 + RunLength(s[1..])
  }

  /** The maximal runs of letters and digits. */
  function Words(s: string): (words: seq<string>)
    ensures forall i :: 0 <= i < |words| ==> |words[i]| > 0 && forall j :: 0 <= j < |words[i]| ==> IsAlnum(words[i][j])
  {
    if s == [] then []
    else if IsAlnum(s[0]) then [s[..RunLength(s)]] + Words(s[RunLength(s)..])
    else Words(s[1..])
  }

  function Join(words: seq<string>): string {
    if words == [] then ""
    else if |words| == 1 then words[0]
    else words[0] + "-" + Join(words[1..])
  }

  /** A name in normal form: label characters, letters or digits at both ends, single dashes. */
  ghost predicate Normal(s: string) {
    IsLabel(s) && NoDoubleDash(s)
  }

  lemma {:induction false} JoinIsNormal(words: seq<string>)
    requires words != []
    requires forall i :: 0 <= i < |words| ==> |words[i]| > 0 && forall j :: 0 <= j < |words[i]| ==> IsAlnum(words[i][j])
    ensures Normal(Join(words))
  {
    if |words| > 1 {
      JoinIsNormal(words[1..]);
    }
  }

  lemma {:induction false} SqueezeRun(s: string, lastDash: bool)
    ensures Squeeze(s, lastDash)
         == s[..RunLength(s)] + Squeeze(s[RunLength(s)..], if RunLength(s) > 0 then false else lastDash)
    decreases s
  {
    if s != [] && IsAlnum(s[0]) {
      SqueezeRun(s[1..], false);
      var n := RunLength(s[1..]);
      assert s[1..][n..] == s[n + 1..];
      assert s[..n + 1] == [s[0]] + s[1..][..n];
    } else {
      assert s[..0] == "";
      assert s[0..] == s;
    }
  }

  lemma JoinOneMore(word: string, words: seq<string>)
    ensures Join([word] + words) == if words == [] then word else word + "-" + Join(words)
  {
    assert ([word] + words)[1..] == words;
  }

  lemma SqueezeLastWord(s: string)
    requires s != [] && RunLength(s) == |s|
    ensures Squeeze(s, true) == s && Words(s) == [s]
  {
    SqueezeRun(s, true);
    assert s[..|s|] == s && s[|s|..] == "";
  }

  lemma SqueezeSeparator(s: string)
    requires s != [] && !IsAlnum(s[0])
    ensures Squeeze(s, false) == "-" + Squeeze(s[1..], true) && Words(s) == Words(s[1..])
  {
  }

  lemma WordsOfRun(s: string)
    requires s != [] && IsAlnum(s[0])
    ensures RunLength(s) > 0 && Words(s) == [s[..RunLength(s)]] + Words(s[RunLength(s)..])
  {
  }

  lemma DropOneMore(s: string, n: nat)
    requires n < |s|
    ensures s[n..] != [] && s[n..][0] == s[n] && s[n..][1..] == s[n + 1..]
  {
  }

  lemma Associates(a: string, b: string, c: string)
    ensures a + (b + c) == a + b + c
  {
  }

  /** After a run of letters and digits comes something that squeezes to a dash. */
  lemma SqueezeWord(s: string, n: nat)
    requires s != [] && IsAlnum(s[0]) && n == RunLength(s) < |s|
    ensures Squeeze(s, true) == s[..n] + "-" + Squeeze(s[n + 1..], true)
    ensures Words(s) == [s[..n]] + Words(s[n + 1..])
  {
    SqueezeRun(s, true);
    WordsOfRun(s);
    DropOneMore(s, n);
    SqueezeSeparator(s[n..]);
    Associates(s[..n], "-", Squeeze(s[n + 1..], true));
  }

  /** `text` is the words joined by dashes, with at most one dash at the end. */
  ghost predicate Joined(text: string, words: seq<string>) {
    text == Join(words) || (words != [] && text == Join(words) + "-")
  }

  /** Read after a dash, a text squeezes to its words joined by dashes. */
  lemma {:induction false} SqueezeJoinsWords(s: string)
    ensures Joined(Squeeze(s, true), Words(s))
    decreases |s|
  {
    if s == [] {
    } else if !IsAlnum(s[0]) {
      SqueezeJoinsWords(s[1..]);
    } else {
      var n := RunLength(s);
      if n == |s| {
        SqueezeLastWord(s);
      } else {
        SqueezeWord(s, n);
        SqueezeJoinsWords(s[n + 1..]);
        JoinedWord(s[..n], Squeeze(s[n + 1..], true), Words(s[n + 1..]));
      }
    }
  }

  lemma JoinedWord(word: string, text: string, words: seq<string>)
    requires Joined(text, words)
    ensures Joined(word + "-" + text, [word] + words)
  {
    JoinOneMore(word, words);
    assert word + "-" + (Join(words) + "-") == word + "-" + Join(words) + "-";
    assert word + "-" + "" == word + "-";
  }

  lemma TrimJoined(s: string)
    requires s == "" || Normal(s)
    ensures Trim(s) == s && Trim(s + "-") == s && Trim("-" + s) == s && Trim("-" + s + "-") == s
  {
    assert (s + "-")[..|s|] == s;
    assert ("-" + s)[1..] == s;
    assert ("-" + s + "-")[1..] == s + "-";
    if s == "" {
      assert s + "-" == "-" && ("-")[1..] == "" && TrimLeft("-") == TrimLeft("");
    }
  }

  /** The loop, dash bookkeeping and trimming included, computes the words of the text joined by single dashes. */
  lemma RewritingJoinsWords(s: string)
    ensures Trim(Squeeze(s, false)) == Join(Words(s))
  {
    var joined := Join(Words(s));
    SqueezeJoinsWords(s);
    if Words(s) != [] {
      JoinIsNormal(Words(s));
    }
    TrimJoined(joined);
    if s != [] && !IsAlnum(s[0]) {
      assert Squeeze(s, false) == "-" + Squeeze(s, true);
      assert "-" + (joined + "-") == "-" + joined + "-";
    } else {
      assert Squeeze(s, false) == Squeeze(s, true);
    }
  }

  // ------------------------------------------------------------------ the results

  /** Cutting a normal name at the limit leaves a normal name; at most one more character is lost to trimming. */
  lemma CutIsNormal(s: string)
    requires Normal(s) && |s| > MAX_LABEL
    ensures Normal(Trim(s[..MAX_LABEL]))
    ensures Trim(s[..MAX_LABEL]) == if s[MAX_LABEL - 1] == '-' then s[..MAX_LABEL - 1] else s[..MAX_LABEL]
  {
    var cut := s[..MAX_LABEL];
    assert TrimLeft(cut) == cut;
    if cut[MAX_LABEL - 1] == '-' {
      var short := s[..MAX_LABEL - 1];
      assert cut[..MAX_LABEL - 1] == short;
      assert short[MAX_LABEL - 2] != '-' by {
        assert s[MAX_LABEL - 2 + 1] == '-';
      }
      assert TrimRight(short) == short;
    }
  }

  lemma {:induction false} LabelHasNoDots(s: string)
    requires forall i :: 0 <= i < |s| ==> s[i] != '.'
    ensures SplitAtDots(s) == [s]
  {
    if s != [] {
      LabelHasNoDots(s[1..]);
      assert s == [s[0]] + s[1..];
    }
  }

  lemma LabelIsSubdomain(s: string)
    requires IsLabel(s) && |s| <= 253
    ensures IsSubdomain(s)
  {
    LabelHasNoDots(s);
  }

  /** A name that had to be rewritten: its words joined by single dashes, cut to 63 characters. */
  lemma RewrittenName(name: string, lower: char -> char)
    requires !IsSubdomain(name)
    ensures var result, words := Sanitize(name, lower), Words(Lowered(name, lower));
            && Normal(result) && |result| <= 63
            && (words == [] ==> result == "manifestwork")
            && (words != [] && |Join(words)| <= 63 ==> result == Join(words))
            && (words != [] && |Join(words)| > 63 ==>
                  result == Join(words)[..if Join(words)[62] == '-' then 62 else 63])
  {
    var words := Words(Lowered(name, lower));
    RewritingJoinsWords(Lowered(name, lower));
    if words != [] {
      JoinIsNormal(words);
      if |Join(words)| > MAX_LABEL {
        CutIsNormal(Join(words));
      }
    } else {
      assert Normal(FALLBACK);
    }
  }

  /** The fallback that follows the cut is never taken. */
  lemma SecondFallbackUnreachable(name: string, lower: char -> char)
    ensures var trimmed := Trim(Squeeze(Lowered(name, lower), false));
            |trimmed| > MAX_LABEL ==> Trim(trimmed[..MAX_LABEL]) != ""
  {
    var s := Lowered(name, lower);
    RewritingJoinsWords(s);
    if Words(s) != [] {
      JoinIsNormal(Words(s));
      if |Join(Words(s))| > MAX_LABEL {
        CutIsNormal(Join(Words(s)));
      }
    }
  }

  /** Every name becomes one that Kubernetes accepts. */
  lemma SanitizeIsValid(name: string, lower: char -> char)
    ensures IsSubdomain(Sanitize(name, lower))
  {
    if !IsSubdomain(name) {
      RewrittenName(name, lower);
      LabelIsSubdomain(Sanitize(name, lower));
    }
  }

  lemma SanitizeIsIdempotent(name: string, lower: char -> char, lower': char -> char)
    ensures Sanitize(Sanitize(name, lower), lower') == Sanitize(name, lower)
  {
    SanitizeIsValid(name, lower);
  }

  // ------------------------------------------------------------------ which names collide

  /** Words as `Words` gives them. */
  ghost predicate Proper(words: seq<string>) {
    forall i :: 0 <= i < |words| ==> |words[i]| > 0 && forall j :: 0 <= j < |words[i]| ==> IsAlnum(words[i][j])
  }

  lemma WordsAreProper(s: string)
    ensures Proper(Words(s))
  {
  }

  lemma {:induction false} RunOfWord(word: string, rest: string)
    requires forall j :: 0 <= j < |word| ==> IsAlnum(word[j])
    requires rest == "" || !IsAlnum(rest[0])
    ensures RunLength(word + rest) == |word|
  {
    if word == "" {
      assert word + rest == rest;
    } else {
      assert (word + rest)[1..] == word[1..] + rest;
      RunOfWord(word[1..], rest);
    }
  }

  lemma FirstWord(word: string, rest: string)
    requires |word| > 0 && (forall j :: 0 <= j < |word| ==> IsAlnum(word[j]))
    requires rest == "" || !IsAlnum(rest[0])
    ensures Words(word + rest) == [word] + Words(rest)
  {
    var s := word + rest;
    RunOfWord(word, rest);
    assert s[..|word|] == word && s[|word|..] == rest;
  }

  lemma FirstOfMore(word: string, rest: string)
    requires |word| > 0 && (forall j :: 0 <= j < |word| ==> IsAlnum(word[j]))
    ensures Words(word + "-" + rest) == [word] + Words(rest)
  {
    FirstWord(word, "-" + rest);
    assert ("-" + rest)[1..] == rest;
    assert word + ("-" + rest) == word + "-" + rest;
  }

  /** Words can be told from their joined text. */
  lemma {:induction false} WordsOfJoin(words: seq<string>)
    requires Proper(words)
    ensures Words(Join(words)) == words
  {
    if words == [] {
    } else if |words| == 1 {
      FirstWord(words[0], "");
      assert words[0] + "" == words[0];
    } else {
      WordsOfJoin(words[1..]);
      FirstOfMore(words[0], Join(words[1..]));
      assert [words[0]] + words[1..] == words;
    }
  }

  lemma {:induction false} SqueezeNormal(s: string, lastDash: bool)
    requires (forall i :: 0 <= i < |s| ==> IsLabelChar(s[i])) && NoDoubleDash(s)
    requires lastDash && s != "" ==> s[0] != '-'
    ensures Squeeze(s, lastDash) == s
  {
    if s != "" {
      assert forall i :: 0 <= i < |s| - 1 ==> s[1..][i] == s[i + 1];
      SqueezeNormal(s[1..], s[0] == '-');
      assert s == [s[0]] + s[1..];
    }
  }

  /** A name in normal form is its own words joined by dashes. */
  lemma JoinOfWords(s: string)
    requires Normal(s)
    ensures Join(Words(s)) == s
  {
    SqueezeNormal(s, false);
    TrimJoined(s);
    RewritingJoinsWords(s);
  }

  /** The words that survive a cut of the joined text to `room` characters; the last one may lose its end. */
  function Kept(words: seq<string>, room: nat): seq<string> {
    if words == [] || room == 0 then []
    else if |words[0]| >= room then [words[0][..room]]
    else [words[0]] + Kept(words[1..], room - |words[0]| - 1)
  }

  lemma {:induction false} KeptIsProper(words: seq<string>, room: nat)
    requires Proper(words)
    ensures Proper(Kept(words, room))
  {
    if words != [] && room > 0 && |words[0]| < room {
      KeptIsProper(words[1..], room - |words[0]| - 1);
    }
  }

  /** Nothing is cut off a text that fits. */
  lemma {:induction false} KeptWhole(words: seq<string>, room: nat)
    requires Proper(words) && |Join(words)| <= room
    ensures Kept(words, room) == words
  {
    if words == [] {
    } else if |words| == 1 {
      assert words[0][..|words[0]|] == words[0];
      assert words[1..] == [] && words == [words[0]];
    } else {
      KeptWhole(words[1..], room - |words[0]| - 1);
      assert words == [words[0]] + words[1..];
    }
  }

  /** Where a joined text is cut to `room` characters: before a dash that would come last. */
  function CutAt(text: string, room: nat): string
    requires 0 < room <= |text|
  {
    text[..if text[room - 1] == '-' then room - 1 else room]
  }

  lemma KeptCutsFirst(words: seq<string>, room: nat)
    requires Proper(words) && 0 < room < |Join(words)| && |words[0]| >= room
    ensures Join(Kept(words, room)) == CutAt(Join(words), room)
  {
    var text := Join(words);
    assert text[room - 1] == words[0][room - 1] && text[..room] == words[0][..room];
  }

  lemma KeptIsFirst(words: seq<string>, room: nat)
    requires Proper(words) && 0 < room < |Join(words)| && |words[0]| + 1 == room
    ensures Join(Kept(words, room)) == CutAt(Join(words), room)
  {
    assert Kept(words, room) == [words[0]] + Kept(words[1..], 0) == [words[0]];
    assert Join(words)[..room - 1] == words[0];
  }

  lemma KeptCutsRest(words: seq<string>, room: nat, left: nat)
    requires |words| > 1 && |words[0]| + 1 + left == room && 0 < left < |Join(words[1..])|
    requires Join(Kept(words[1..], left)) == CutAt(Join(words[1..]), left)
    ensures 0 < room < |Join(words)| && Join(Kept(words, room)) == CutAt(Join(words), room)
  {
    var first, text, rest := words[0], Join(words), Join(words[1..]);
    KeptIsNotEmpty(words[1..], left);
    JoinOneMore(first, Kept(words[1..], left));
    assert text[room - 1] == rest[left - 1];
    assert first + "-" + CutAt(rest, left) == CutAt(text, room);
  }

  /** Joining what is kept is cutting what is joined, without a dash at the end. */
  lemma {:induction false} JoinOfKept(words: seq<string>, room: nat)
    requires Proper(words) && 0 < room < |Join(words)|
    ensures Join(Kept(words, room)) == CutAt(Join(words), room)
  {
    if |words[0]| >= room {
      KeptCutsFirst(words, room);
    } else if |words[0]| + 1 == room {
      KeptIsFirst(words, room);
    } else {
      var left := room - |words[0]| - 1;
      JoinOfKept(words[1..], left);
      KeptCutsRest(words, room, left);
    }
  }

  lemma KeptIsNotEmpty(words: seq<string>, room: nat)
    requires room > 0 && words != []
    ensures Kept(words, room) != []
  {
  }

  /** The words by which a rewritten name is known: its first 63 characters' worth, or the fallback. */
  function NameWords(name: string, lower: char -> char): seq<string> {
    var words := Words(Lowered(name, lower));
    if words == [] then [FALLBACK] else Kept(words, MAX_LABEL)
  }

  lemma NameWordsAreProper(name: string, lower: char -> char)
    ensures Proper(NameWords(name, lower))
  {
    WordsAreProper(Lowered(name, lower));
    KeptIsProper(Words(Lowered(name, lower)), MAX_LABEL);
  }

  lemma RewrittenIsJoined(name: string, lower: char -> char)
    requires !IsSubdomain(name)
    ensures Sanitize(name, lower) == Join(NameWords(name, lower))
  {
    var words := Words(Lowered(name, lower));
    RewrittenName(name, lower);
    WordsAreProper(Lowered(name, lower));
    if words != [] {
      if |Join(words)| > MAX_LABEL {
        JoinOfKept(words, MAX_LABEL);
      } else {
        KeptWhole(words, MAX_LABEL);
      }
    }
  }

  /** Exactly which names get the same work name. Two accepted names: none but equal ones. Two others: those with the
      same words, as far as 63 characters go. An accepted and another one: when the accepted name is a label of these
      very words, with single dashes. */
  lemma CollisionsExactly(a: string, b: string, lower: char -> char)
    ensures Sanitize(a, lower) == Sanitize(b, lower) <==>
              if IsSubdomain(a) && IsSubdomain(b) then a == b
              else if IsSubdomain(a) then Normal(a) && Words(a) == NameWords(b, lower)
              else if IsSubdomain(b) then Normal(b) && Words(b) == NameWords(a, lower)
              else NameWords(a, lower) == NameWords(b, lower)
  {
    if IsSubdomain(a) && !IsSubdomain(b) {
      AcceptedMeetsRewritten(a, b, lower);
    } else if !IsSubdomain(a) && IsSubdomain(b) {
      AcceptedMeetsRewritten(b, a, lower);
    } else if !IsSubdomain(a) && !IsSubdomain(b) {
      RewrittenIsJoined(a, lower);
      RewrittenIsJoined(b, lower);
      NameWordsAreProper(a, lower);
      NameWordsAreProper(b, lower);
      WordsOfJoin(NameWords(a, lower));
      WordsOfJoin(NameWords(b, lower));
    }
  }

  lemma AcceptedMeetsRewritten(a: string, b: string, lower: char -> char)
    requires IsSubdomain(a) && !IsSubdomain(b)
    ensures a == Sanitize(b, lower) <==> Normal(a) && Words(a) == NameWords(b, lower)
  {
    RewrittenName(b, lower);
    RewrittenIsJoined(b, lower);
    NameWordsAreProper(b, lower);
    WordsOfJoin(NameWords(b, lower));
    if Normal(a) {
      JoinOfWords(a);
    }
  }

  lemma NormalFormStays(name: string, lower: char -> char)
    requires !IsSubdomain(name) && Normal(Lowered(name, lower)) && |name| <= 63
    ensures Sanitize(name, lower) == Lowered(name, lower)
  {
    SqueezeNormal(Lowered(name, lower), false);
    TrimJoined(Lowered(name, lower));
  }

  /** Upper case is not lost: a name that only lower-casing makes acceptable, in normal form and not too long, becomes
      its lower case. */
  lemma LowerCaseSuffices(name: string, lowered: string, lower: char -> char)
    requires !IsSubdomain(name) && |lowered| == |name| && forall i :: 0 <= i < |name| ==> lowered[i] == lower(name[i])
    requires Normal(lowered) && |lowered| <= 63
    ensures Sanitize(name, lower) == lowered
  {
    assert Lowered(name, lower) == lowered;
    NormalFormStays(name, lower);
  }

  /** The lower-casing map on the characters that matter: capital letters become small, and nothing else that may stand
      in a name or is turned into a dash changes. */
  lemma LowerRuneOnAscii()
    ensures forall i :: 0 <= i < 26 ==>
              LowerRune("ABCDEFGHIJKLMNOPQRSTUVWXYZ"[i]) == "abcdefghijklmnopqrstuvwxyz"[i]
    ensures forall c :: IsLabelChar(c) || c == '_' || c == '.' || c == '/' ==> LowerRune(c) == c
  {
  }

  lemma NotASubdomain(name: string, i: nat)
    requires (forall j :: 0 <= j < |name| ==> name[j] != '.') && i < |name| && !IsLabelChar(name[i])
    ensures !IsSubdomain(name)
  {
    LabelHasNoDots(name);
    assert name in SplitAtDots(name);
  }

  lemma BecomesDash(name: string, lower: char -> char)
    requires name == "a_b" || name == "a/b"
    requires forall i :: 0 <= i < 3 ==> lower(name[i]) == name[i]
    ensures Sanitize(name, lower) == "a-b"
  {
    NotASubdomain(name, 1);
    assert Lowered(name, lower) == "a-b";
    NormalFormStays(name, lower);
  }

  lemma CollisionExample(lower: char -> char)
    requires forall c :: IsLabelChar(c) || c == '_' || c == '/' ==> lower(c) == c
    ensures Sanitize("a_b", lower) == Sanitize("a/b", lower) == "a-b"
  {
    BecomesDash("a_b", lower);
    BecomesDash("a/b", lower);
  }
}
