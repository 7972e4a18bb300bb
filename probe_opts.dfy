/**
 * `parse_probe_opts` of the `lttng enable-event` command: a probe or
 * function location `symbol+offset`, `symbol` or `address`, numbers in C's
 * base-0 notation.
 */
module ProbeOpts {
  import opened Wrappers
  import opened CStrings
  import opened Lttng
  import opened LibcStrtoul
  import opened LibcScan

  /** Size of the parser's number buffer `s_hex`. */
  const S_HEX_LEN: nat := 19


  /**
   * Whether `isalpha(name[0])` holds after the first scan: the scan's own
   * first character when it stored a name, and otherwise whatever the
   * uninitialised buffer held (`staleAlpha`).
   */
  function FirstIsAlpha(first: Scan, staleAlpha: bool): bool
    requires first.count >= 1 ==> first.name != []
  {
    if first.count >= 1 then IsAlpha(first.name[0]) else staleAlpha
  }

  /** The address branch is taken: neither the symbol+offset nor the symbol form matched. */
  predicate TakesAddressBranch(s: string, staleAlpha: bool) {
    var first := ScanSymbolOffset(s);
    first.count != 2 && !(FirstIsAlpha(first, staleAlpha) && ScanWord(s).count == 1)
  }

  /**
   * What the scans store stays within its buffer, terminator included:
   * the scan-set run, and in the symbol branch the first word, go to
   * `name` (LTTNG_SYMBOL_NAME_LEN bytes); the offset token, and in the
   * address branch the first word, go to `s_hex` (S_HEX_LEN bytes).
   */
  predicate ProbeBuffersFit(s: string, staleAlpha: bool) {
    var first := ScanSymbolOffset(s);
    && |first.name| < LTTNG_SYMBOL_NAME_LEN
    && |first.hex| < S_HEX_LEN
    && (first.count != 2 && FirstIsAlpha(first, staleAlpha) ==> |ScanWord(s).name| < LTTNG_SYMBOL_NAME_LEN)
    && (TakesAddressBranch(s, staleAlpha) ==> |ScanWord(s).name| < S_HEX_LEN)
  }

  /**
   * `parse_probe_opts(ev, opt)` on the probe attributes `ev`: the return
   * value and the attributes afterwards.
   */
  function ParseProbeOpts(ev: ProbeAttr, opt: Option<string>, staleAlpha: bool): (r: (int, ProbeAttr))
    requires opt.Some? ==> ProbeBuffersFit(opt.value, staleAlpha)
    ensures r.0 == -1 || r.0 == 1 || r.0 == 2
    ensures r.0 == -1 ==> r.1 == ev
    ensures opt.None? ==> r == (-1, ev)
    ensures r.0 >= 1 ==> |r.1.symbolName| < LTTNG_SYMBOL_NAME_LEN
    ensures r.0 == 2 <==> opt.Some? && ScanSymbolOffset(opt.value).count == 2
    ensures r.0 == 2 ==>
      r.1.addr == 0 &&
      r.1.offset == Strtoul(ScanSymbolOffset(opt.value).hex) &&
      r.1.symbolName == Truncate(opt.value[..Span(opt.value, InScanSet)], LTTNG_SYMBOL_NAME_LEN)
    ensures r.0 == 1 <==>
      opt.Some? && ScanSymbolOffset(opt.value).count != 2 && ScanWord(opt.value).count == 1
    ensures r.0 == 1 && !TakesAddressBranch(opt.value, staleAlpha) ==>
      r.1 == ProbeAttr(0, 0, Truncate(ScanWord(opt.value).name, LTTNG_SYMBOL_NAME_LEN))
    ensures r.0 == 1 && TakesAddressBranch(opt.value, staleAlpha) ==>
      r.1 == ProbeAttr(Strtoul(ScanWord(opt.value).name), 0, "")
  {
    if opt.None? then (-1, ev)
    else
      var s := opt.value;
      var first := ScanSymbolOffset(s);
      if first.count == 2 then
        var sym := Truncate(first.name, LTTNG_SYMBOL_NAME_LEN);
        if |first.hex| == 0 then (-1, ev.(symbolName := sym))
        else (2, ProbeAttr(0, Strtoul(first.hex), sym))
      else
        var word := ScanWord(s);
        if FirstIsAlpha(first, staleAlpha) && word.count == 1 then
          (1, ProbeAttr(0, 0, Truncate(word.name, LTTNG_SYMBOL_NAME_LEN)))
        else if word.count > 0 then
          if |word.name| == 0 then (-1, ev)
          else (1, ProbeAttr(Strtoul(word.name), 0, ""))
        else (-1, ev)
  }

  /** A successful parse sets every probe field, so its result does not depend on the old ones. */
  lemma ParseOverwritesProbe(ev: ProbeAttr, ev': ProbeAttr, opt: Option<string>, staleAlpha: bool)
    requires opt.Some? ==> ProbeBuffersFit(opt.value, staleAlpha)
    ensures ParseProbeOpts(ev, opt, staleAlpha).0 == ParseProbeOpts(ev', opt, staleAlpha).0
    ensures ParseProbeOpts(ev, opt, staleAlpha).0 >= 1 ==>
      ParseProbeOpts(ev, opt, staleAlpha).1 == ParseProbeOpts(ev', opt, staleAlpha).1
  {
  }

  /** Whether a parse succeeds, and in which form, depends neither on the old attributes nor on the stale `name[0]`. */
  lemma ParseOutcomeIgnoresStale(ev: ProbeAttr, ev': ProbeAttr, opt: Option<string>, staleA: bool, staleB: bool)
    requires opt.Some? ==> ProbeBuffersFit(opt.value, staleA) && ProbeBuffersFit(opt.value, staleB)
    ensures ParseProbeOpts(ev, opt, staleA).0 == ParseProbeOpts(ev', opt, staleB).0
  {
  }

  /** "sym+0xOFF" parses to the symbol and the offset, with a zero address. */
  lemma ParseSymbolOffset(ev: ProbeAttr, sym: string, off: nat, staleAlpha: bool)
    requires sym != [] && |sym| < LTTNG_SYMBOL_NAME_LEN && off <= ULONG_MAX
    requires forall i :: 0 <= i < |sym| ==> InScanSet(sym[i])
    ensures var s := sym + "+0x" + Digits(off, 16);
      ProbeBuffersFit(s, staleAlpha) && ParseProbeOpts(ev, Some(s), staleAlpha) == (2, ProbeAttr(0, off, sym))
  {
    var tok := "0x" + Digits(off, 16);
    HexNumberToken(off);
    var s := sym + "+" + tok;
    assert sym + "+0x" + Digits(off, 16) == s;
    ScanOfSymbolOffset(sym, tok);
    assert !TakesAddressBranch(s, staleAlpha);
    assert ProbeBuffersFit(s, staleAlpha);
    assert Truncate(sym, LTTNG_SYMBOL_NAME_LEN) == sym;
  }

  /**
   * Text after a blank that ends the offset is never scanned into a
   * buffer, so "sym+0xOFF" followed by a blank and any text, however long,
   * parses like "sym+0xOFF".
   */
  lemma ParseSymbolOffsetThenText(ev: ProbeAttr, sym: string, off: nat, blank: char, rest: string, staleAlpha: bool)
    requires sym != [] && |sym| < LTTNG_SYMBOL_NAME_LEN && off <= ULONG_MAX && IsSpace(blank)
    requires forall i :: 0 <= i < |sym| ==> InScanSet(sym[i])
    ensures var s := sym + "+0x" + Digits(off, 16) + [blank] + rest;
      ProbeBuffersFit(s, staleAlpha) && ParseProbeOpts(ev, Some(s), staleAlpha) == (2, ProbeAttr(0, off, sym))
  {
    var tok := "0x" + Digits(off, 16);
    HexNumberToken(off);
    var s := sym + "+" + tok + [blank] + rest;
    assert sym + "+0x" + Digits(off, 16) + [blank] + rest == s;
    ScanOfSymbolOffsetThenText(sym, tok, blank, rest);
    assert !TakesAddressBranch(s, staleAlpha);
    assert Truncate(sym, LTTNG_SYMBOL_NAME_LEN) == sym;
  }

  /** "0x" and the hexadecimal digits of a 64-bit value: one word of at most 18 characters that reads back. */
  lemma HexNumberToken(n: nat)
    requires n <= ULONG_MAX
    ensures var tok := "0x" + Digits(n, 16);
      && 3 <= |tok| < S_HEX_LEN
      && (forall i :: 0 <= i < |tok| ==> IsWordChar(tok[i]) && InScanSet(tok[i]))
      && !IsAlpha(tok[0])
      && Strtoul(tok) == n
  {
    DigitsRoundTrip(n, 16);
    SixteenToTheSixteen();
    HexDigitsLength(n, 16);
    DigitsAreDigits(n, 16);
    HexToken(Digits(n, 16));
    StrtoulRoundTrip(n);
  }

  /** A symbol of letters and other non-blank characters without a plus parses to that symbol. */
  lemma ParseSymbol(ev: ProbeAttr, sym: string, staleAlpha: bool)
    requires sym != [] && IsAlpha(sym[0]) && |sym| < LTTNG_SYMBOL_NAME_LEN
    requires forall i :: 0 <= i < |sym| ==> sym[i] != '+' && IsWordChar(sym[i])
    ensures ProbeBuffersFit(sym, staleAlpha) && ParseProbeOpts(ev, Some(sym), staleAlpha) == (1, ProbeAttr(0, 0, sym))
  {
    ScanOfPlusFree(sym);
    ScanWordOfWord(sym);
    assert !TakesAddressBranch(sym, staleAlpha);
  }

  /** A number token that fits `s_hex` and does not start with a letter parses to the address it denotes. */
  lemma ParseNumberToken(ev: ProbeAttr, tok: string, addr: nat, staleAlpha: bool)
    requires tok != [] && |tok| < S_HEX_LEN && !IsAlpha(tok[0]) && Strtoul(tok) == addr
    requires forall i :: 0 <= i < |tok| ==> IsWordChar(tok[i]) && InScanSet(tok[i])
    ensures ProbeBuffersFit(tok, staleAlpha) && ParseProbeOpts(ev, Some(tok), staleAlpha) == (1, ProbeAttr(addr, 0, ""))
  {
    ScanOfRun(tok);
    ScanWordOfWord(tok);
  }

  /** Digits of a base up to 16 are neither blank nor a quote or a plus, and the first is no letter. */
  lemma DigitToken(tok: string)
    requires tok != [] && '0' <= tok[0] <= '9' && AllDigits(tok, 16)
    ensures !IsAlpha(tok[0])
    ensures forall i :: 0 <= i < |tok| ==> IsWordChar(tok[i]) && InScanSet(tok[i])
  {
    forall i | 0 <= i < |tok| ensures IsWordChar(tok[i]) && InScanSet(tok[i]) {
      HexDigitIsWordChar(tok[i]);
    }
  }

  /** "0xADDR" parses to that address, with a zero offset and no symbol. */
  lemma ParseAddress(ev: ProbeAttr, addr: nat, staleAlpha: bool)
    requires addr <= ULONG_MAX
    ensures var s := "0x" + Digits(addr, 16);
      ProbeBuffersFit(s, staleAlpha) && ParseProbeOpts(ev, Some(s), staleAlpha) == (1, ProbeAttr(addr, 0, ""))
  {
    HexNumberToken(addr);
    ParseNumberToken(ev, "0x" + Digits(addr, 16), addr, staleAlpha);
  }

  /** A decimal address shorter than `s_hex` parses to that address, with a zero offset and no symbol. */
  lemma ParseDecimalAddress(ev: ProbeAttr, addr: nat, staleAlpha: bool)
    requires addr <= ULONG_MAX && |Digits(addr, 10)| < S_HEX_LEN
    ensures var s := Digits(addr, 10);
      ProbeBuffersFit(s, staleAlpha) && ParseProbeOpts(ev, Some(s), staleAlpha) == (1, ProbeAttr(addr, 0, ""))
  {
    var d := Digits(addr, 10);
    StrtoulRoundTrip(addr);
    DigitsAreDigits(addr, 10);
    assert AllDigits(d, 16) && '0' <= d[0] <= '9' by {
      assert forall i :: 0 <= i < |d| ==> IsDigitIn(d[i], 10);
    }
    DigitToken(d);
    ParseNumberToken(ev, d, addr, staleAlpha);
  }

  /** "0" and octal digits, shorter than `s_hex`, parse to that address, with a zero offset and no symbol. */
  lemma ParseOctalAddress(ev: ProbeAttr, addr: nat, staleAlpha: bool)
    requires addr <= ULONG_MAX && |"0" + Digits(addr, 8)| < S_HEX_LEN
    ensures var s := "0" + Digits(addr, 8);
      ProbeBuffersFit(s, staleAlpha) && ParseProbeOpts(ev, Some(s), staleAlpha) == (1, ProbeAttr(addr, 0, ""))
  {
    var o8 := Digits(addr, 8);
    var o := "0" + o8;
    StrtoulRoundTrip(addr);
    DigitsAreDigits(addr, 8);
    forall i | 0 <= i < |o| ensures IsDigitIn(o[i], 16) {
      if i > 0 {
        assert o[i] == o8[i - 1] && IsDigitIn(o8[i - 1], 8);
      }
    }
    DigitToken(o);
    ParseNumberToken(ev, o, addr, staleAlpha);
  }
}
