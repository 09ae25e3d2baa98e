/** Properties of the command recogniser of `ChatbotActions`: it ignores letter case, and the trade commands
    it is written for are read as intended. */
module ChatbotActionsProofs {
  import opened Wrappers
  import opened Text
  import opened Values
  import opened ChatbotActions

  /** Two texts that differ only in the case of their letters. */
  predicate SameUpToCase(s: string, t: string) {
    |s| == |t| && forall i :: 0 <= i < |s| ==> SameLetter(s[i], t[i])
  }

  /** Letter case does not change which character classes a character belongs to. */
  lemma CaseBlindClasses(c: char, d: char)
    requires SameLetter(c, d)
    ensures IsSpace(c) == IsSpace(d) && IsDigit(c) == IsDigit(d) && IsWordChar(c) == IsWordChar(d)
  {
  }

  lemma {:induction false} RunEndCaseBlind(s: string, t: string, i: nat, ok: char -> bool)
    requires |s| == |t| && i <= |s|
    requires forall k :: i <= k < |s| ==> ok(s[k]) == ok(t[k])
    ensures RunEnd(s, i, ok) == RunEnd(t, i, ok)
    decreases |s| - i
  {
    if i < |s| && ok(s[i]) {
      RunEndCaseBlind(s, t, i + 1, ok);
    }
  }

  /** A character class that does not depend on letter case. */
  ghost predicate CaseBlindClass(ok: char -> bool) {
    forall c, d :: SameLetter(c, d) ==> ok(c) == ok(d)
  }

  /** The three character classes of the patterns, `\s`, `\d` and `\w`, do not depend on letter case. */
  lemma PatternClassesCaseBlind()
    ensures CaseBlindClass(IsSpace) && CaseBlindClass(IsDigit) && CaseBlindClass(IsWordChar)
  {
    forall c, d | SameLetter(c, d)
      ensures IsSpace(c) == IsSpace(d) && IsDigit(c) == IsDigit(d) && IsWordChar(c) == IsWordChar(d)
    {
      CaseBlindClasses(c, d);
    }
  }

  lemma RunCaseBlind(s: string, t: string, i: nat, ok: char -> bool)
    requires SameUpToCase(s, t) && CaseBlindClass(ok)
    ensures Run(s, i, ok) == Run(t, i, ok)
  {
    forall k | 0 <= k < |s|
      ensures ok(s[k]) == ok(t[k])
    {
      assert SameLetter(s[k], t[k]);
    }
    if i <= |s| {
      RunEndCaseBlind(s, t, i, ok);
    }
  }

  lemma {:induction false} LitCaseBlind(s: string, t: string, i: nat, word: string)
    requires SameUpToCase(s, t)
    ensures Lit(s, i, word) == Lit(t, i, word)
    decreases |word|
  {
    if word != [] && i < |s| {
      assert SameLetter(s[i], t[i]);
      LitCaseBlind(s, t, i + 1, word[1..]);
    }
  }

  lemma LitSpacesCaseBlind(s: string, t: string, i: nat, word: string)
    requires SameUpToCase(s, t)
    ensures LitSpaces(s, i, word) == LitSpaces(t, i, word)
  {
    PatternClassesCaseBlind();
    LitCaseBlind(s, t, i, word);
    if Lit(s, i, word).Some? {
      RunCaseBlind(s, t, Lit(s, i, word).value, IsSpace);
    }
  }

  lemma PhraseCaseBlind(s: string, t: string, i: nat, first: string, second: string)
    requires SameUpToCase(s, t)
    ensures Phrase(s, i, first, second) == Phrase(t, i, first, second)
  {
    LitSpacesCaseBlind(s, t, i, first);
    if LitSpaces(s, i, first).Some? {
      LitCaseBlind(s, t, LitSpaces(s, i, first).value, second);
    }
  }

  lemma SharesOfCaseBlind(s: string, t: string, i: nat)
    requires SameUpToCase(s, t)
    ensures SharesOf(s, i) == SharesOf(t, i)
  {
    PatternClassesCaseBlind();
    LitCaseBlind(s, t, i, "share");
    if Lit(s, i, "share").Some? {
      var j := Lit(s, i, "share").value;
      if j < |s| {
        assert SameLetter(s[j], t[j]);
      }
      RunCaseBlind(s, t, j, IsSpace);
      RunCaseBlind(s, t, j + 1, IsSpace);
      forall k: nat
        ensures LitSpaces(s, k, "of") == LitSpaces(t, k, "of")
      {
        LitSpacesCaseBlind(s, t, k, "of");
      }
    }
  }

  lemma OptionalThenWordCaseBlind(s: string, t: string, i: nat, group: Option<nat>)
    requires SameUpToCase(s, t)
    ensures OptionalThenWord(s, i, group) == OptionalThenWord(t, i, group)
  {
    PatternClassesCaseBlind();
    RunCaseBlind(s, t, i, IsWordChar);
    if group.Some? {
      RunCaseBlind(s, t, group.value, IsWordChar);
    }
  }

  lemma TradeMatchCaseBlind(s: string, t: string, verb: string)
    requires SameUpToCase(s, t)
    ensures TradeMatch(s, verb) == TradeMatch(t, verb)
  {
    PatternClassesCaseBlind();
    LitSpacesCaseBlind(s, t, 0, verb);
    if LitSpaces(s, 0, verb).Some? {
      var i := LitSpaces(s, 0, verb).value;
      RunCaseBlind(s, t, i, IsDigit);
      if Run(s, i, IsDigit).Some? {
        var j := Run(s, i, IsDigit).value;
        RunCaseBlind(s, t, j, IsSpace);
        if Run(s, j, IsSpace).Some? {
          var k := Run(s, j, IsSpace).value;
          SharesOfCaseBlind(s, t, k);
          OptionalThenWordCaseBlind(s, t, k, SharesOf(s, k));
        }
      }
    }
  }

  lemma RequestBodyCaseBlind(s: string, t: string, i: nat, request: Request)
    requires SameUpToCase(s, t)
    ensures RequestBody(s, i, request) == RequestBody(t, i, request)
  {
    PatternClassesCaseBlind();
    match request
    case QuoteRequest =>
      LitSpacesCaseBlind(s, t, i, "quote");
      if LitSpaces(s, i, "quote").Some? {
        var j := LitSpaces(s, i, "quote").value;
        LitSpacesCaseBlind(s, t, j, "for");
        OptionalThenWordCaseBlind(s, t, j, LitSpaces(s, j, "for"));
      }
    case PositionRequest =>
      LitSpacesCaseBlind(s, t, i, "position");
      if LitSpaces(s, i, "position").Some? {
        var j := LitSpaces(s, i, "position").value;
        LitSpacesCaseBlind(s, t, j, "for");
        OptionalThenWordCaseBlind(s, t, j, LitSpaces(s, j, "for"));
      }
    case SummaryRequest =>
      PhraseCaseBlind(s, t, i, "portfolio", "summary");
    case AnalysisRequest =>
      PhraseCaseBlind(s, t, i, "technical", "analysis");
      LitCaseBlind(s, t, i, "indicators");
      var head := if Phrase(s, i, "technical", "analysis").Some? then Phrase(s, i, "technical", "analysis")
                  else Lit(s, i, "indicators");
      if head.Some? {
        RunCaseBlind(s, t, head.value, IsSpace);
        if Run(s, head.value, IsSpace).Some? {
          var j := Run(s, head.value, IsSpace).value;
          LitSpacesCaseBlind(s, t, j, "for");
          OptionalThenWordCaseBlind(s, t, j, LitSpaces(s, j, "for"));
        }
      }
    case StatusRequest =>
      PhraseCaseBlind(s, t, i, "market", "status");
  }

  lemma RequestMatchCaseBlind(s: string, t: string, request: Request)
    requires SameUpToCase(s, t)
    ensures RequestMatch(s, request) == RequestMatch(t, request)
  {
    LitSpacesCaseBlind(s, t, 0, "get");
    RequestBodyCaseBlind(s, t, 0, request);
    if LitSpaces(s, 0, "get").Some? {
      RequestBodyCaseBlind(s, t, LitSpaces(s, 0, "get").value, request);
    }
  }

  /** Recognition ignores letter case: `BUY 10 aapl` and `buy 10 AAPL` give the same command with the same spans. */
  lemma {:induction false} RecognizeIgnoresCase(s: string, t: string)
    requires SameUpToCase(s, t)
    ensures Recognize(s) == Recognize(t)
  {
    TradeMatchCaseBlind(s, t, "buy");
    TradeMatchCaseBlind(s, t, "sell");
    RequestMatchCaseBlind(s, t, QuoteRequest);
    RequestMatchCaseBlind(s, t, PositionRequest);
    RequestMatchCaseBlind(s, t, SummaryRequest);
    RequestMatchCaseBlind(s, t, AnalysisRequest);
    RequestMatchCaseBlind(s, t, StatusRequest);
  }

  /** The recogniser answers with the first pattern that matches: a `buy` match wins outright ... */
  lemma RecognizedAsBuy(m: string)
    requires TradeMatch(m, "buy").Some?
    ensures Recognize(m) == Some(Recognized(BuyCommand, TradeMatch(m, "buy").value.0, TradeMatch(m, "buy").value.1))
  {
  }

  /** ... and a `sell` match wins when `buy` does not match. */
  lemma RecognizedAsSell(m: string)
    requires TradeMatch(m, "buy").None? && TradeMatch(m, "sell").Some?
    ensures Recognize(m) == Some(Recognized(SellCommand, TradeMatch(m, "sell").value.0, TradeMatch(m, "sell").value.1))
  {
  }

  /** A buy message, given by the layout of its parts. */
  lemma BuyLayout(m: string, d: string, w: string, rest: string)
    requires d != [] && AllDigits(d)
    requires w != [] && (forall i :: 0 <= i < |w| ==> IsWordChar(w[i])) && !GroupApplies(m, 5 + |d|)
    requires rest == [] || !IsWordChar(rest[0])
    requires |m| == 5 + |d| + |w| + |rest|
    requires m[..5 + |d|] == "buy" + " " + d + " "
    requires m[5 + |d|..] == w + rest
    requires m[5 + |d|] == w[0]
    ensures TradeMatch(m, "buy") == Some((Span(4, 4 + |d|), Span(5 + |d|, 5 + |d| + |w|)))
  {
    var k := 5 + |d|;
    PlainSymbolAt(m, k, w, rest);
    TradeMatchAt(m, "buy", d, 4, 4 + |d|, k, Span(k, k + |w|));
  }

  /** The spans of `buy <digits> <symbol><rest>`. */
  lemma BuyMatch(d: string, w: string, rest: string)
    requires d != [] && AllDigits(d)
    requires w != [] && (forall i :: 0 <= i < |w| ==> IsWordChar(w[i]))
    requires !GroupApplies("buy " + d + " " + w + rest, 5 + |d|)
    requires rest == [] || !IsWordChar(rest[0])
    ensures var m := "buy " + d + " " + w + rest;
      && TradeMatch(m, "buy") == Some((Span(4, 4 + |d|), Span(5 + |d|, 5 + |d| + |w|)))
      && m[4..4 + |d|] == d && m[5 + |d|..5 + |d| + |w|] == w
  {
    var head := "buy " + d + " ";
    var m := head + (w + rest);
    assert m == "buy " + d + " " + w + rest;
    var k := |head|;
    assert m[..k] == "buy" + " " + d + " ";
    assert m[k..] == w + rest;
    assert m[k] == w[0];
    BuyLayout(m, d, w, rest);
    assert m[4..4 + |d|] == head[4..4 + |d|] == d;
    assert m[k..k + |w|] == m[k..][..|w|] == w;
  }

  /** `buy <digits> <symbol>` followed by anything that does not continue the symbol: a market buy of that
      many shares of that symbol, unless the symbol and what follows read `shares of <word>`. */
  lemma {:induction false} BuyCommandParsed(d: string, w: string, rest: string)
    requires d != [] && AllDigits(d)
    requires w != [] && (forall i :: 0 <= i < |w| ==> IsWordChar(w[i]))
    requires !GroupApplies("buy " + d + " " + w + rest, 5 + |d|)
    requires rest == [] || !IsWordChar(rest[0])
    ensures ParseNaturalLanguage("buy " + d + " " + w + rest)
      == Some(Command("place_market_order",
                      map["symbol" := VStr(w), "qty" := VFloat(DigitsValue(d) as real), "side" := VStr("buy")]))
  {
    var m := "buy " + d + " " + w + rest;
    BuyMatch(d, w, rest);
    RecognizedAsBuy(m);
  }

  /** A symbol that begins with `s` is a symbol like any other unless the group applies: `buy 10 SPY`. */
  lemma BuySpyParsed()
    ensures ParseNaturalLanguage("buy 10 SPY")
      == Some(Command("place_market_order", map["symbol" := VStr("SPY"), "qty" := VFloat(10.0), "side" := VStr("buy")]))
  {
    var m := "buy 10 SPY";
    assert m == "buy " + "10" + " " + "SPY" + "";
    assert Lit(m, 7, "share").None? by {
      assert m[7] == 'S' && m[8] == 'P';
      assert Lit(m, 8, "hare").None? by {
        assert "hare"[0] == 'h';
      }
    }
    assert DigitsValue("10") == 10 by {
      assert "10"[..1] == "1";
    }
    BuyCommandParsed("10", "SPY", "");
  }

  /** A message that starts with `s` is not a buy. */
  lemma NotBuy(m: string)
    requires m != [] && m[0] == 's'
    ensures TradeMatch(m, "buy").None?
  {
    assert Lit(m, 0, "buy").None? by {
      assert "buy"[0] == 'b';
    }
  }

  /** How `sell <digits> shares of <symbol><rest>` is laid out: the digits run from `i` to `j`, the group
      starts at `g` and the symbol runs from `k` to `e`. */
  lemma SellSharesOfSlices(m: string, d: string, w: string, rest: string, i: nat, j: nat, g: nat, k: nat, e: nat)
    requires m == "sell " + d + " shares of " + w + rest
    requires i == 5 && j == i + |d| && g == j + 1 && k == g + 10 && e == k + |w|
    ensures |m| == k + |w| + |rest|
    ensures m[..g] == "sell" + " " + d + " "
    ensures m[g..] == "shares of " + (w + rest)
    ensures m[i..j] == d && m[k..e] == w
  {
    var head := "sell " + d + " ";
    assert m == head + ("shares of " + (w + rest));
    assert m[i..j] == head[i..j];
    var tail := "shares of " + (w + rest);
    assert m[k..] == tail[10..] == w + rest;
    assert m[k..e] == m[k..][..|w|];
  }

  /** `sell <digits> shares of <symbol>`: the optional group is consumed and the word after it is the symbol. */
  lemma {:induction false} SellSharesOfParsed(d: string, w: string, rest: string)
    requires d != [] && AllDigits(d)
    requires w != [] && forall i :: 0 <= i < |w| ==> IsWordChar(w[i])
    requires rest == [] || !IsWordChar(rest[0])
    ensures ParseNaturalLanguage("sell " + d + " shares of " + w + rest)
      == Some(Command("place_market_order",
                      map["symbol" := VStr(w), "qty" := VFloat(DigitsValue(d) as real), "side" := VStr("sell")]))
  {
    var m := "sell " + d + " shares of " + w + rest;
    var i, j, g, k, e := 5, 5 + |d|, 6 + |d|, 16 + |d|, 16 + |d| + |w|;
    SellSharesOfSlices(m, d, w, rest, i, j, g, k, e);
    TradeMatchWithShares(m, "sell", d, w, rest, i, j, g, k, e);
    NotBuy(m);
    RecognizedAsSell(m);
  }
}
