/** Normalising, masking and shortening ticket text before it reaches a provider. */
module TextPreparation {
  import opened Common

  const MAX_TEXT_LENGTH := 8000
  const EXCERPT_LENGTH := 200

  /** The characters Python's `str.isspace` and `\s` accept. */
  predicate IsSpace(c: char) {
    var n := c as int;
    || 0x09 <= n <= 0x0D || 0x1C <= n <= 0x20 || n == 0x85 || n == 0xA0 || n == 0x1680
    || 0x2000 <= n <= 0x200A || n == 0x2028 || n == 0x2029 || n == 0x202F || n == 0x205F || n == 0x3000
  }

  function LStrip(space: char -> bool, s: string): (r: string)
    ensures |r| <= |s| && r == s[|s| - |r|..]
    ensures r != [] ==> !space(r[0])
  {
    if s != [] && space(s[0]) then LStrip(space, s[1..]) else s
  }

  function RStrip(space: char -> bool, s: string): (r: string)
    ensures r <= s
    ensures r != [] ==> !space(r[|r| - 1])
  {
    if s != [] && space(s[|s| - 1]) then RStrip(space, s[..|s| - 1]) else s
  }

  /** Every run of whitespace becomes one space, put where the run ends. */
  function Collapse(space: char -> bool, s: string): string {
    if s == [] then []
    else if !space(s[0]) then [s[0]] + Collapse(space, s[1..])
    else if |s| > 1 && space(s[1]) then Collapse(space, s[1..])
    else " " + Collapse(space, s[1..])
  }

  function NormalizeBy(space: char -> bool, text: string): string {
    Collapse(space, RStrip(space, LStrip(space, text)))
  }

  function NormalizeSegment(text: string): string { NormalizeBy(IsSpace, text) }

  // ---- normalising is joining words -----------------------------------------------------------

  predicate IsWord(space: char -> bool, w: string) { w != [] && forall c :: c in w ==> !space(c) }

  /** The whitespace-separated words of a text. */
  function Words(space: char -> bool, s: string): (ws: seq<string>)
    ensures forall w :: w in ws ==> IsWord(space, w)
    ensures s != [] && (!space(s[0]) || !space(s[|s| - 1])) ==> ws != []
  {
    if s == [] then []
    else
      var ws := Words(space, s[1..]);
      if space(s[0]) then ws
      else if |s| > 1 && !space(s[1]) then
        assert IsWord(space, ws[0]);
        [[s[0]] + ws[0]] + ws[1..]
      else [[s[0]]] + ws
  }

  function JoinWords(ws: seq<string>): string {
    if ws == [] then "" else ws[0] + JoinRest(ws[1..])
  }

  function JoinRest(ws: seq<string>): string {
    if ws == [] then "" else " " + (ws[0] + JoinRest(ws[1..]))
  }

  /** Text without trailing blanks collapses to its words joined by single spaces. */
  lemma {:induction false} CollapseIsJoin(space: char -> bool, s: string)
    requires s != [] ==> !space(s[|s| - 1])
    ensures Collapse(space, s) == if s != []
            && space(s[0]) then JoinRest(Words(space, s)) else JoinWords(Words(space, s))
  {
    if |s| > 1 {
      CollapseIsJoin(space, s[1..]);
      var ws := Words(space, s[1..]);
      assert JoinRest(ws) == " " + JoinWords(ws);
      if !space(s[0]) && !space(s[1]) {
        assert ([[s[0]] + ws[0]] + ws[1..])[1..] == ws[1..];
        Regroup([s[0]], ws[0], JoinRest(ws[1..]));
      } else if !space(s[0]) {
        assert ([[s[0]]] + ws)[1..] == ws;
      }
    }
  }

  lemma {:induction false} WordsIgnoreTrailingSpace(space: char -> bool, s: string, c: char)
    requires space(c)
    ensures Words(space, s + [c]) == Words(space, s)
  {
    if s != [] {
      WordsIgnoreTrailingSpace(space, s[1..], c);
      assert (s + [c])[1..] == s[1..] + [c];
    }
  }

  lemma {:induction false} WordsOfRStrip(space: char -> bool, s: string)
    ensures Words(space, RStrip(space, s)) == Words(space, s)
  {
    if s != [] && space(s[|s| - 1]) {
      WordsOfRStrip(space, s[..|s| - 1]);
      WordsIgnoreTrailingSpace(space, s[..|s| - 1], s[|s| - 1]);
      assert s == s[..|s| - 1] + [s[|s| - 1]];
    }
  }

  lemma {:induction false} WordsOfLStrip(space: char -> bool, s: string)
    ensures Words(space, LStrip(space, s)) == Words(space, s)
  {
    if s != [] && space(s[0]) { WordsOfLStrip(space, s[1..]); }
  }

  /** Normalising a segment is joining its words with single spaces. */
  lemma NormalizeIsJoin(space: char -> bool, s: string)
    ensures NormalizeBy(space, s) == JoinWords(Words(space, s))
  {
    var t := LStrip(space, s);
    var u := RStrip(space, t);
    if u != [] { assert u[0] == t[0]; }
    CollapseIsJoin(space, u);
    WordsOfRStrip(space, t);
    WordsOfLStrip(space, s);
  }

  lemma {:induction false} WordsOfWord(space: char -> bool, w: string, rest: string)
    requires IsWord(space, w) && (rest != [] ==> space(rest[0]))
    ensures Words(space, w + rest) == [w] + Words(space, rest)
  {
    assert (w + rest)[1..] == w[1..] + rest;
    assert w[0] in w;
    if |w| > 1 {
      assert w[1] in w;
      WordsOfWord(space, w[1..], rest);
      assert [w[0]] + w[1..] == w;
    } else {
      assert w[1..] + rest == rest && [w[0]] == w;
    }
  }

  lemma {:induction false} WordsOfJoinRest(space: char -> bool, ws: seq<string>)
    requires space(' ') && forall w :: w in ws ==> IsWord(space, w)
    ensures Words(space, JoinRest(ws)) == ws
  {
    if ws != [] {
      assert IsWord(space, ws[0]);
      WordsOfJoinRest(space, ws[1..]);
      WordsOfWord(space, ws[0], JoinRest(ws[1..]));
      assert JoinRest(ws)[1..] == ws[0] + JoinRest(ws[1..]);
    }
  }

  lemma WordsOfJoin(space: char -> bool, ws: seq<string>)
    requires space(' ') && forall w :: w in ws ==> IsWord(space, w)
    ensures Words(space, JoinWords(ws)) == ws
  {
    if ws != [] {
      assert IsWord(space, ws[0]);
      WordsOfJoinRest(space, ws[1..]);
      WordsOfWord(space, ws[0], JoinRest(ws[1..]));
    }
  }

  /** Normalising twice changes nothing, and texts normalise alike exactly when they have the same words. */
  lemma NormalizeSeesWordsOnly(s: string, t: string)
    ensures NormalizeSegment(s) == JoinWords(Words(IsSpace, s))
    ensures NormalizeSegment(NormalizeSegment(s)) == NormalizeSegment(s)
    ensures NormalizeSegment(s) == NormalizeSegment(t) <==> Words(IsSpace, s) == Words(IsSpace, t)
  {
    BlankIsSpace();
    NormalizeIsJoin(IsSpace, s);
    NormalizeIsJoin(IsSpace, t);
    WordsOfJoin(IsSpace, Words(IsSpace, s));
    WordsOfJoin(IsSpace, Words(IsSpace, t));
    NormalizeIsJoin(IsSpace, NormalizeSegment(s));
  }

  lemma BlankIsSpace()
    ensures IsSpace(' ') && IsSpace('\n')
  {}

  // ---- shortening -----------------------------------------------------------------------------

  function Truncate(text: string, maxLength: int): string {
    if |text| <= maxLength then text else RStrip(IsSpace, Prefix(text, maxLength - 3)) + "..."
  }

  /** A shortened text fits exactly when the bound leaves room for the ellipsis or nothing was cut. */
  lemma TruncateFits(text: string, maxLength: int)
    ensures |Truncate(text, maxLength)| <= maxLength <==> maxLength >= 3 || |text| <= maxLength
    ensures maxLength >= 3 ==> Truncate(Truncate(text, maxLength), maxLength) == Truncate(text, maxLength)
    ensures |text| > maxLength >= 3 ==> Truncate(text, maxLength)[..|Truncate(text, maxLength)| - 3] <= text
  {}

  datatype PreparedText = PreparedText(subject: string, body: string, sanitizedText: string)

  /** `mask` replaces e-mail addresses and phone numbers. */
  function PrepareTicketText(mask: string -> string, subject: string, body: string): PreparedText {
    var s, b := NormalizeSegment(subject), NormalizeSegment(body);
    var combined := RStrip(IsSpace, LStrip(IsSpace, s + "\n" + b));
    PreparedText(s, b, Truncate(mask(combined), MAX_TEXT_LENGTH))
  }

  function ExcerptBody(mask: string -> string, body: string, maxLength: int := EXCERPT_LENGTH): string {
    Truncate(mask(NormalizeSegment(body)), maxLength)
  }

  /** What reaches a provider is bounded and depends on the words of subject and body only. */
  lemma PreparedTextBounded(mask: string -> string, subject: string, body: string, maxLength: int)
    ensures |PrepareTicketText(mask, subject, body).sanitizedText| <= MAX_TEXT_LENGTH
    ensures maxLength >= 3 ==> |ExcerptBody(mask, body, maxLength)| <= maxLength
    ensures forall s, b :: Words(IsSpace, s) == Words(IsSpace, subject) && Words(IsSpace, b) == Words(IsSpace, body) ==>
      PrepareTicketText(mask, s, b) == PrepareTicketText(mask, subject, body)
  {
    var combined := RStrip(IsSpace, LStrip(IsSpace, NormalizeSegment(subject) + "\n" + NormalizeSegment(body)));
    TruncateFits(mask(combined), MAX_TEXT_LENGTH);
    TruncateFits(mask(NormalizeSegment(body)), maxLength);
    forall s, b | Words(IsSpace, s) == Words(IsSpace, subject) && Words(IsSpace, b) == Words(IsSpace, body)
      ensures PrepareTicketText(mask, s, b) == PrepareTicketText(mask, subject, body)
    {
      NormalizeSeesWordsOnly(s, subject);
      NormalizeSeesWordsOnly(b, body);
    }
  }

  // ---- what prepared text says ----------------------------------------------------------------

  predicate InLine(c: char) { c != '\n' }

  /** The words of a text on one line, separated by single spaces. */
  function Line(s: string): string { JoinWords(Words(IsSpace, s)) }

  lemma {:induction false} JoinRestInLine(ws: seq<string>)
    requires forall w :: w in ws ==> IsWord(IsSpace, w)
    ensures forall c :: c in JoinRest(ws) ==> InLine(c)
    ensures ws != [] ==> JoinRest(ws) != [] && !IsSpace(JoinRest(ws)[|JoinRest(ws)| - 1])
  {
    if ws != [] {
      assert IsWord(IsSpace, ws[0]);
      JoinRestInLine(ws[1..]);
      assert forall c :: c in ws[0] ==> InLine(c) by { assert IsSpace('\n'); }
      assert ws[0][|ws[0]| - 1] in ws[0];
    }
  }

  /** A line has no line breaks, and no blanks at its ends. */
  lemma LineIsTrim(s: string)
    ensures forall c :: c in Line(s) ==> InLine(c)
    ensures Line(s) != [] ==> !IsSpace(Line(s)[0]) && !IsSpace(Line(s)[|Line(s)| - 1])
    ensures Line(s) == [] <==> Words(IsSpace, s) == []
  {
    var ws := Words(IsSpace, s);
    if ws != [] {
      assert IsWord(IsSpace, ws[0]);
      JoinRestInLine(ws[1..]);
      assert forall c :: c in ws[0] ==> InLine(c) by { assert IsSpace('\n'); }
      assert ws[0][0] in ws[0] && ws[0][|ws[0]| - 1] in ws[0];
    }
  }

  /** Subject and body on two lines, or whichever of them has words. */
  function Lines(subject: string, body: string): string {
    if Line(subject) == [] then Line(body)
    else if Line(body) == [] then Line(subject)
    else Line(subject) + ("\n" + Line(body))
  }

  predicate Trim(space: char -> bool, s: string) { s != [] ==> !space(s[0]) && !space(s[|s| - 1]) }

  function Strip(space: char -> bool, s: string): string { RStrip(space, LStrip(space, s)) }

  /** Stripping leaves trim text alone, and takes a blank off either end of it. */
  lemma StripTrim(space: char -> bool, s: string, blank: char)
    requires Trim(space, s) && space(blank)
    ensures Strip(space, s) == s && Strip(space, [blank] + s) == s && Strip(space, s + [blank]) == s
  {
    assert ([blank] + s)[1..] == s && (s + [blank])[..|s|] == s;
    if s == [] { assert [blank][1..] == []; }
  }

  lemma CombinedIsLines(subject: string, body: string)
    ensures Strip(IsSpace, Line(subject) + "\n" + Line(body)) == Lines(subject, body)
  {
    LineIsTrim(subject);
    LineIsTrim(body);
    BlankIsSpace();
    hide IsSpace, Line, Strip;
    var s, b := Line(subject), Line(body);
    if s == [] {
      assert s + "\n" + b == ['\n'] + b;
      StripTrim(IsSpace, b, '\n');
    } else if b == [] {
      assert s + "\n" + b == s + ['\n'];
      StripTrim(IsSpace, s, '\n');
    } else {
      Regroup(s, "\n", b);
      TrimJoined(s, b);
      StripTrim(IsSpace, s + ("\n" + b), '\n');
    }
  }

  lemma TrimJoined(s: string, b: string)
    requires s != [] && b != [] && Trim(IsSpace, s) && Trim(IsSpace, b)
    ensures Trim(IsSpace, s + ("\n" + b))
  {
    hide IsSpace;
    var t := s + ("\n" + b);
    assert t[0] == s[0] && t[|t| - 1] == b[|b| - 1];
  }

  /** Cutting keeps all that fits before the ellipsis but blanks at the cut. */
  lemma TruncateKeeps(text: string, maxLength: int)
    requires |text| > maxLength >= 3
    ensures var cut := Truncate(text, maxLength);
            && |cut| >= 3 && cut[|cut| - 3..] == "..."
            && forall i :: |cut| - 3 <= i < maxLength - 3 ==> IsSpace(text[i])
  {
    var shown := text[..maxLength - 3];
    var kept := RStrip(IsSpace, shown);
    assert Truncate(text, maxLength) == kept + "...";
    StrippedIsBlank(shown);
  }

  lemma {:induction false} StrippedIsBlank(s: string)
    ensures forall i :: |RStrip(IsSpace, s)| <= i < |s| ==> IsSpace(s[i])
  {
    if s != [] && IsSpace(s[|s| - 1]) { StrippedIsBlank(s[..|s| - 1]); }
  }

  /** Prepared text is the masked lines of subject and body, and an excerpt the masked line of the body; cut if long. */
  lemma PreparedTextSays(mask: string -> string, subject: string, body: string, maxLength: int)
    ensures var p := PrepareTicketText(mask, subject, body);
            && p.subject == Line(subject) && p.body == Line(body)
            && p.sanitizedText == Truncate(mask(Lines(subject, body)), MAX_TEXT_LENGTH)
            && (|mask(Lines(subject, body))| <= MAX_TEXT_LENGTH ==> p.sanitizedText == mask(Lines(subject, body)))
    ensures |mask(Line(body))| <= maxLength ==> ExcerptBody(mask, body, maxLength) == mask(Line(body))
  {
    NormalizeSeesWordsOnly(subject, body);
    NormalizeSeesWordsOnly(body, subject);
    CombinedIsLines(subject, body);
    hide IsSpace, Lines, Words, JoinWords, NormalizeSegment, RStrip, LStrip;
  }

  /** Unmasked text that fits tells the words of subject and body apart, once both have words. */
  lemma LinesSeparate(subject: string, body: string, subject': string, body': string)
    requires Line(subject) != [] && Line(body) != [] && Line(subject') != [] && Line(body') != []
    requires Lines(subject, body) == Lines(subject', body')
    ensures Words(IsSpace, subject) == Words(IsSpace, subject') && Words(IsSpace, body) == Words(IsSpace, body')
  {
    LineIsTrim(subject);
    LineIsTrim(subject');
    SameCut(InLine, Line(subject), "\n" + Line(body), Line(subject'), "\n" + Line(body'));
    DropPrefix("\n", Line(body), Line(body'));
    BlankIsSpace();
    WordsOfJoin(IsSpace, Words(IsSpace, subject));
    WordsOfJoin(IsSpace, Words(IsSpace, subject'));
    WordsOfJoin(IsSpace, Words(IsSpace, body));
    WordsOfJoin(IsSpace, Words(IsSpace, body'));
  }
}
