/**
 * The two `sscanf` formats the probe parser uses, over character spans.
 */
module LibcScan {
  import opened CStrings
  import opened LibcStrtoul


  /** The length of the longest prefix of `s` whose characters satisfy `ok`. */
  function Span(s: string, ok: char -> bool): (n: nat)
    ensures n <= |s|
    ensures forall i :: 0 <= i < n ==> ok(s[i])
    ensures n < |s| ==> !ok(s[n])
  {
    if s == [] || !ok(s[0]) then 0 else 1 + Span(s[1..], ok)
  }

  /** Characters of the scan set `%[^'+']`: anything but a quote or a plus. */
  predicate InScanSet(c: char) {
    c != '\'' && c != '+'
  }

  /** Characters `%s` collects. */
  predicate IsWordChar(c: char) {
    !IsSpace(c)
  }

  /** `s` past its leading white space. */
  function SkipSpaces(s: string): (r: string)
    ensures |r| <= |s| && r == s[|s| - |r|..]
    ensures r == [] || !IsSpace(r[0])
  {
    if s != [] && IsSpace(s[0]) then SkipSpaces(s[1..]) else s
  }


  /** What one `sscanf` call did: its return value and the strings it stored. */
  datatype Scan = Scan(count: int, name: string, hex: string)

  /**
   * `sscanf(s, "%[^'+']+%s", name, s_hex)`: the scan set takes the longest
   * run without a quote or a plus (it does not skip white space and fails
   * on an empty run), the literal plus must follow, and `%s` skips white
   * space and takes the next word.  An empty input is EOF (-1).
   */
  function ScanSymbolOffset(s: string): (r: Scan)
    ensures -1 <= r.count <= 2
    ensures r.count >= 1 ==> r.name == s[..Span(s, InScanSet)] && r.name != []
    ensures r.count == 2 ==> r.hex != [] && forall i :: 0 <= i < |r.hex| ==> IsWordChar(r.hex[i])
  {
    var n := Span(s, InScanSet);
    if n == 0 then Scan(if s == [] then -1 else 0, "", "")
    else
      var rest := s[n..];
      if rest == [] || rest[0] != '+' then Scan(1, s[..n], "")
      else
        var after := SkipSpaces(rest[1..]);
        if after == [] then Scan(1, s[..n], "")
        else Scan(2, s[..n], after[..Span(after, IsWordChar)])
  }

  /** `sscanf(s, "%s", buf)`: the first white-space delimited word, or EOF. */
  function ScanWord(s: string): (r: Scan)
    ensures r.count == 1 || r.count == -1
    ensures r.count == 1 ==> r.name != [] && forall i :: 0 <= i < |r.name| ==> IsWordChar(r.name[i])
  {
    var after := SkipSpaces(s);
    if after == [] then Scan(-1, "", "") else Scan(1, after[..Span(after, IsWordChar)], "")
  }

  /** "0x" and hexadecimal digits are neither blank nor a quote or a plus. */
  lemma HexToken(h: string)
    requires AllDigits(h, 16)
    ensures forall i :: 0 <= i < |"0x" + h| ==> IsWordChar(("0x" + h)[i]) && InScanSet(("0x" + h)[i])
  {
    forall i | 0 <= i < |h| ensures IsWordChar(h[i]) && InScanSet(h[i]) {
      HexDigitIsWordChar(h[i]);
    }
    AllCharsConcat("0x", h);
  }

  /** A hexadecimal digit is not white space, a quote or a plus. */
  lemma HexDigitIsWordChar(c: char)
    requires IsDigitIn(c, 16)
    ensures IsWordChar(c) && InScanSet(c)
  {
  }

  /** Two strings of non-blank scan-set characters make one. */
  lemma AllCharsConcat(a: string, b: string)
    requires forall i :: 0 <= i < |a| ==> IsWordChar(a[i]) && InScanSet(a[i])
    requires forall i :: 0 <= i < |b| ==> IsWordChar(b[i]) && InScanSet(b[i])
    ensures forall i :: 0 <= i < |a + b| ==> IsWordChar((a + b)[i]) && InScanSet((a + b)[i])
  {
  }

  /** A whole word is what `%s` reads. */
  lemma ScanWordOfWord(w: string)
    requires w != [] && forall i :: 0 <= i < |w| ==> IsWordChar(w[i])
    ensures ScanWord(w) == Scan(1, w, "")
  {
    assert SkipSpaces(w) == w;
    SpanAll(w, IsWordChar);
    assert w[..|w|] == w;
  }

  /** Input without a quote or a plus is one scan-set run, and the literal plus is missing. */
  lemma ScanOfRun(s: string)
    requires s != [] && forall i :: 0 <= i < |s| ==> InScanSet(s[i])
    ensures ScanSymbolOffset(s) == Scan(1, s, "")
  {
    SpanAll(s, InScanSet);
    assert s[..|s|] == s;
  }

  /** Input without a plus that starts in the scan set matches only the first conversion. */
  lemma ScanOfPlusFree(s: string)
    requires s != [] && InScanSet(s[0])
    requires forall i :: 0 <= i < |s| ==> s[i] != '+'
    ensures ScanSymbolOffset(s).count == 1 && ScanSymbolOffset(s).hex == ""
  {
    var n := Span(s, InScanSet);
    assert n >= 1;
    assert n < |s| ==> s[n] != '+';
  }

  /** `sym+tok` scans to both conversions. */
  lemma ScanOfSymbolOffset(sym: string, tok: string)
    requires sym != [] && forall i :: 0 <= i < |sym| ==> InScanSet(sym[i])
    requires tok != [] && forall i :: 0 <= i < |tok| ==> IsWordChar(tok[i])
    ensures ScanSymbolOffset(sym + "+" + tok) == Scan(2, sym, tok)
  {
    var s := sym + "+" + tok;
    SpanOfPrefix(sym, "+" + tok, InScanSet);
    assert s == sym + ("+" + tok);
    assert s[..|sym|] == sym && s[|sym|..] == "+" + tok;
    assert ("+" + tok)[1..] == tok;
    assert SkipSpaces(tok) == tok;
    SpanAll(tok, IsWordChar);
    assert tok[..|tok|] == tok;
  }

  /** `sym+tok`, then a blank and any text, scans to the same two conversions: `%s` stops at the blank. */
  lemma ScanOfSymbolOffsetThenText(sym: string, tok: string, blank: char, rest: string)
    requires sym != [] && forall i :: 0 <= i < |sym| ==> InScanSet(sym[i])
    requires tok != [] && forall i :: 0 <= i < |tok| ==> IsWordChar(tok[i])
    requires IsSpace(blank)
    ensures ScanSymbolOffset(sym + "+" + tok + [blank] + rest) == Scan(2, sym, tok)
  {
    var after := tok + ([blank] + rest);
    var s := sym + ("+" + after);
    assert sym + "+" + tok + [blank] + rest == s;
    SpanOfPrefix(sym, "+" + after, InScanSet);
    assert s[..|sym|] == sym && s[|sym|..] == "+" + after;
    assert ("+" + after)[1..] == after;
    WordThenBlank(tok, blank, rest);
  }

  /** A word, a blank and any text: `%s` skips nothing and takes exactly the word. */
  lemma WordThenBlank(tok: string, blank: char, rest: string)
    requires tok != [] && forall i :: 0 <= i < |tok| ==> IsWordChar(tok[i])
    requires IsSpace(blank)
    ensures var after := tok + ([blank] + rest);
      SkipSpaces(after) == after && after[..Span(after, IsWordChar)] == tok
  {
    var after := tok + ([blank] + rest);
    assert after[0] == tok[0];
    SpanOfPrefix(tok, [blank] + rest, IsWordChar);
    assert after[..|tok|] == tok;
  }

  /** A string all of whose characters satisfy `ok` is one span. */
  lemma {:induction false} SpanAll(s: string, ok: char -> bool)
    requires forall i :: 0 <= i < |s| ==> ok(s[i])
    ensures Span(s, ok) == |s|
    decreases |s|
  {
    if s != [] {
      SpanAll(s[1..], ok);
    }
  }

  /** A span stops at the first character that fails `ok`. */
  lemma {:induction false} SpanOfPrefix(p: string, rest: string, ok: char -> bool)
    requires forall i :: 0 <= i < |p| ==> ok(p[i])
    requires rest != [] && !ok(rest[0])
    ensures Span(p + rest, ok) == |p|
    decreases |p|
  {
    if p == [] {
      assert p + rest == rest;
    } else {
      assert (p + rest)[1..] == p[1..] + rest;
      SpanOfPrefix(p[1..], rest, ok);
    }
  }
}
