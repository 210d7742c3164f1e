/**
 Fitting the diff sections of a rule group into their quotas
 (diffTruncationMarker, truncateDiffToBytes, fitDiffBody, diffSection and the
 rendering loop of assembleGroupPrompt in internal/agent/review_with_ocr.go).
 */
module DiffRender {
  import opened DiffQuotas

  // A character stands for one byte of UTF-8 text.
  type Bytes = string

  const GROUP_DIFF_BUDGET_BYTES: nat := 1048576
  const ELLIPSIS: Bytes := "\U{e2}\U{80}\U{a6}"

  // ----- the truncation marker -----

  function Digit(d: nat): char
    requires d < 10
  {
    '0' + d as char
  }

  /** strconv.Itoa on a count. */
  function Decimal(n: nat): (s: Bytes)
    ensures |s| > 0
  {
    if n < 10 then [Digit(n)] else Decimal(n / 10) + [Digit(n % 10)]
  }

  function Value(s: Bytes): int {
    if s == "" then 0 else 10 * Value(s[..|s| - 1]) + (s[|s| - 1] as int - '0' as int)
  }

  lemma {:induction false} DecimalRoundTrip(n: nat)
    ensures Value(Decimal(n)) == n
  {
    if n >= 10 {
      DecimalRoundTrip(n / 10);
      assert Decimal(n)[..|Decimal(n)| - 1] == Decimal(n / 10);
    }
  }

  /** Decimal digits only, and no zero in front. */
  lemma {:induction false} DecimalDigits(n: nat)
    ensures forall k | 0 <= k < |Decimal(n)| :: '0' <= Decimal(n)[k] <= '9'
    ensures n > 0 ==> Decimal(n)[0] != '0'
    ensures n == 0 ==> Decimal(n) == "0"
  {
    if n >= 10 {
      DecimalDigits(n / 10);
    }
  }

  /** A smaller count never prints wider. */
  lemma {:induction false} DecimalGrows(a: nat, b: nat)
    requires a <= b
    ensures |Decimal(a)| <= |Decimal(b)|
  {
    if a >= 10 {
      DecimalGrows(a / 10, b / 10);
    }
  }

  const MARKER_HEAD: Bytes := "\n" + ELLIPSIS + "(diff truncated: "
  const MARKER_TAIL: Bytes :=
    " bytes dropped; read the affected files directly for full context)" + ELLIPSIS + "\n"

  function Marker(dropped: nat): Bytes { MARKER_HEAD + Decimal(dropped) + MARKER_TAIL }

  /** The marker names the number of dropped bytes: a reader can take it back out. */
  lemma MarkerNames(dropped: nat)
    ensures |Marker(dropped)| >= |MARKER_HEAD| + |MARKER_TAIL|
    ensures Value(Marker(dropped)[|MARKER_HEAD|..|Marker(dropped)| - |MARKER_TAIL|]) == dropped
  {
    DecimalRoundTrip(dropped);
    var marker := Marker(dropped);
    assert marker[|MARKER_HEAD|..|marker| - |MARKER_TAIL|] == Decimal(dropped);
  }

  /** What it says. */
  lemma MarkerText(dropped: nat)
    ensures Marker(dropped) ==
      "\n\U{e2}\U{80}\U{a6}(diff truncated: " + Decimal(dropped)
        + " bytes dropped; read the affected files directly for full context)\U{e2}\U{80}\U{a6}\n"
  {
  }

  // ----- whole lines -----

  /** The first n bytes are whole lines. */
  predicate LineEnd(s: Bytes, n: nat) {
    n == 0 || (n <= |s| && s[n - 1] == '\n')
  }

  /** Of the prefixes made of whole lines, the longest within a limit. */
  ghost predicate LongestLines(s: Bytes, limit: int, n: nat) {
    && LineEnd(s, n) && (n == 0 || n <= limit)
    && forall j: nat | n < j <= limit :: !LineEnd(s, j)
  }

  function LinesWithin(s: Bytes, limit: nat): (n: nat)
    ensures LongestLines(s, limit, n) && n <= |s|
  {
    if LineEnd(s, limit) then limit else LinesWithin(s, limit - 1)
  }

  datatype Cut = Cut(text: Bytes, dropped: nat)

  function Truncated(s: Bytes, budget: int): Cut {
    if |s| <= budget || s == "" then Cut(s, 0)
    else if budget <= 0 then Cut("", |s|)
    else var n := LinesWithin(s, budget); Cut(s[..n], |s| - n)
  }

  method IndexNewline(s: Bytes, from: nat) returns (at: int)
    requires from <= |s|
    ensures at < 0 ==> forall j | from <= j < |s| :: s[j] != '\n'
    ensures at >= 0 ==> from + at < |s| && s[from + at] == '\n' && forall j | from <= j < from + at :: s[j] != '\n'
  {
    for i := from to |s|
      invariant forall j | from <= j < i :: s[j] != '\n'
    {
      if s[i] == '\n' { return i - from; }
    }
    return -1;
  }

  lemma LongestLinesUnique(s: Bytes, limit: int, a: nat, b: nat)
    requires LongestLines(s, limit, a) && LongestLines(s, limit, b)
    ensures a == b
  {
  }

  method TruncateDiffToBytes(s: Bytes, budget: int) returns (kept: Bytes, dropped: nat)
    ensures Cut(kept, dropped) == Truncated(s, budget)
    ensures dropped <= |s| && kept == s[..|s| - dropped]
    ensures if s == "" || |s| <= budget then dropped == 0 else LongestLines(s, budget, |kept|)
  {
    if s == "" { return "", 0; }
    if |s| <= budget { return s, 0; }
    if budget <= 0 { return "", |s|; }
    var idx: nat := 0;
    while idx < |s|
      invariant idx <= |s| && idx <= budget && LineEnd(s, idx)
    {
      var next := IndexNewline(s, idx);
      if next < 0 || idx + next + 1 > budget {
        assert forall j: nat | idx < j <= budget :: !LineEnd(s, j);
        break;
      }
      idx := idx + next + 1;
    }
    LongestLinesUnique(s, budget, idx, LinesWithin(s, budget));
    return s[..idx], |s| - idx;
  }

  // ----- the body of a section -----

  function FitDiffBody(content: Bytes, allowance: int): Cut {
    if |content| <= allowance then Cut(content, 0)
    else
      var reserve := |Marker(|content|)|;
      if reserve > allowance then Cut("", |content|)
      else
        var cut := Truncated(content, allowance - reserve);
        if cut.text == "" then Cut(Marker(|content|), |content|)
        else Cut(cut.text + Marker(cut.dropped), cut.dropped)
  }

  /** A body that was cut: whole lines of the content, then the marker naming what is missing. */
  ghost predicate CutBody(content: Bytes, body: Bytes, dropped: nat) {
    && 0 < dropped <= |content|
    && LineEnd(content, |content| - dropped)
    && body == content[..|content| - dropped] + Marker(dropped)
  }

  lemma CutFits(content: Bytes, allowance: int)
    requires |Marker(|content|)| <= allowance < |content|
    ensures var cut, reserve := FitDiffBody(content, allowance), |Marker(|content|)|;
      && CutBody(content, cut.text, cut.dropped) && |cut.text| <= allowance
      && LongestLines(content, allowance - reserve, |content| - cut.dropped)
  {
    MarkerNames(|content|);
    var limit := allowance - |Marker(|content|)|;
    var cut := Truncated(content, limit);
    DecimalGrows(cut.dropped, |content|);
    if cut.text == "" {
      assert cut.dropped == |content| && LongestLines(content, limit, 0);
      assert content[..0] + Marker(|content|) == Marker(|content|);
    } else {
      assert cut.text == content[..|content| - cut.dropped] && cut.dropped > 0;
    }
  }

  /**
   Content that fits is verbatim. Otherwise the body is empty exactly when the widest marker does not fit; else
   it keeps the longest run of whole lines that leaves room for that widest marker, and fits.
   */
  lemma BodyFits(content: Bytes, allowance: int)
    ensures var cut := FitDiffBody(content, allowance);
      var reserve := |Marker(|content|)|;
      if |content| <= allowance then cut == Cut(content, 0)
      else if reserve > allowance then cut == Cut("", |content|)
      else
        && CutBody(content, cut.text, cut.dropped) && |cut.text| <= allowance
        && LongestLines(content, allowance - reserve, |content| - cut.dropped)
  {
    if |Marker(|content|)| <= allowance < |content| {
      CutFits(content, allowance);
    }
  }

  /** A prefix and its own marker fit the allowance. */
  predicate FitsBesideOwnMarker(content: Bytes, allowance: int, n: nat) {
    n <= |content| && n + |Marker(|content| - n)| <= allowance
  }

  /** What a marker takes besides the digits of its count. */
  const MARKER_TEXT: nat := |MARKER_HEAD| + |MARKER_TAIL|

  /** A line ends at n where the digits of the bytes then dropped still fit, but not those of the whole length. */
  predicate LostLine(content: Bytes, allowance: int, n: nat) {
    && 0 < n <= |content| && LineEnd(content, n)
    && n + |Decimal(|content| - n)| <= allowance - MARKER_TEXT < n + |Decimal(|content|)|
  }

  /** The kept lines are the longest that fit beside their own marker. */
  ghost predicate NothingLost(content: Bytes, allowance: int) {
    forall n: nat | LineEnd(content, n) && FitsBesideOwnMarker(content, allowance, n) ::
      n <= |content| - FitDiffBody(content, allowance).dropped
  }

  lemma LostExactly(content: Bytes, allowance: int, n: nat)
    requires allowance < |content| && LineEnd(content, n) && FitsBesideOwnMarker(content, allowance, n)
    ensures n > |content| - FitDiffBody(content, allowance).dropped <==> LostLine(content, allowance, n)
  {
    BodyFits(content, allowance);
    MarkerNames(|content|);
  }

  /**
   For every content that is cut, a marker too wide for the allowance included: the kept lines are the longest that
   fit beside their own marker exactly when no line ends in that window of at most a few digits.
   */
  lemma LongestBesideOwnMarker(content: Bytes, allowance: int)
    requires allowance < |content|
    ensures NothingLost(content, allowance) <==> forall n: nat :: !LostLine(content, allowance, n)
  {
    if n: nat :| LostLine(content, allowance, n) {
      assert FitsBesideOwnMarker(content, allowance, n);
      LostExactly(content, allowance, n);
    } else {
      forall n: nat | LineEnd(content, n) && FitsBesideOwnMarker(content, allowance, n)
        ensures n <= |content| - FitDiffBody(content, allowance).dropped
      {
        LostExactly(content, allowance, n);
      }
    }
  }

  /** That window is empty when every possible dropped count has as many digits as the content length. */
  lemma SameDigitsLoseNothing(content: Bytes, allowance: int)
    requires allowance < |content| && |Decimal(|content| - allowance)| == |Decimal(|content|)|
    ensures NothingLost(content, allowance)
  {
    LongestBesideOwnMarker(content, allowance);
    forall n: nat ensures !LostLine(content, allowance, n) {
      if LostLine(content, allowance, n) {
        SameWidth(|content| - allowance, |content| - n, |content|);
      }
    }
  }

  lemma SameWidth(low: nat, count: nat, high: nat)
    requires low <= count <= high && |Decimal(low)| == |Decimal(high)|
    ensures |Marker(count)| == |Marker(high)|
  {
    DecimalGrows(low, count);
    DecimalGrows(count, high);
  }

  /** It can happen: one line of one byte would fit beside "99 bytes dropped", yet nothing is kept. */
  lemma WidestMarkerCostsALine()
    ensures var content := "\n" + seq(99, _ => 'x');
      var allowance := |Marker(99)| + 1;
      && allowance < |content| && LineEnd(content, 1) && FitsBesideOwnMarker(content, allowance, 1)
      && FitDiffBody(content, allowance) == Cut(Marker(100), 100)
  {
    assert |Decimal(9)| == 1 && |Decimal(99)| == 2;
    assert |Decimal(10)| == 2 && |Decimal(100)| == 3;
  }

  // ----- a section -----

  datatype Section = Section(title: Bytes, content: Bytes)

  function Head(s: Section): Bytes { "## " + s.title + "\n```\n" }

  const TAIL: Bytes := "\n```\n"

  function Overhead(s: Section): nat { |Head(s)| + |TAIL| }

  function Size(s: Section): nat { if s.content == "" then 0 else Overhead(s) + |s.content| }

  function Sizes(sections: seq<Section>): seq<nat> {
    seq(|sections|, i requires 0 <= i < |sections| => Size(sections[i]))
  }

  method DiffSectionSizes(sections: seq<Section>) returns (sizes: seq<nat>)
    ensures sizes == Sizes(sections)
  {
    sizes := seq(|sections|, _ => 0);
    for i := 0 to |sections|
      invariant |sizes| == |sections|
      invariant forall j | 0 <= j < |sections| :: sizes[j] == if j < i then Size(sections[j]) else 0
    {
      if sections[i].content != "" {
        sizes := sizes[i := Overhead(sections[i]) + |sections[i].content|];
      }
    }
  }

  function Render(s: Section, quota: int): Cut {
    if s.content == "" then Cut("", 0)
    else
      var allowance := quota - |Head(s)| - |TAIL|;
      if allowance <= 0 then Cut("", |s.content|)
      else
        var body := FitDiffBody(s.content, allowance);
        if body.text == "" then body else Cut(Head(s) + body.text + TAIL, body.dropped)
  }

  function Verbatim(s: Section): Bytes { if s.content == "" then "" else Head(s) + s.content + TAIL }

  /** A block accounts for its section's content: all of it, none of it, or whole lines plus the marker. */
  ghost predicate Accounts(s: Section, block: Bytes, dropped: nat) {
    || (dropped == 0 && block == Verbatim(s))
    || (dropped == |s.content| > 0 && block == "")
    || (exists body :: CutBody(s.content, body, dropped) && block == Head(s) + body + TAIL)
  }

  /** A block stays inside its quota, accounts for its section, and is cut exactly when the section is larger. */
  lemma RenderFits(s: Section, quota: nat)
    ensures var block := Render(s, quota);
      && |block.text| <= quota && Accounts(s, block.text, block.dropped)
      && (block.dropped == 0 <==> Size(s) <= quota)
  {
    if s.content != "" {
      var allowance := quota - |Head(s)| - |TAIL|;
      if allowance > 0 {
        BodyFits(s.content, allowance);
      }
    }
  }

  /**
   What is printed of a section: nothing of an empty one, all of one that fits, nothing of one whose quota holds no
   marker beside its head and tail, and of any other the longest run of whole lines that leaves room for the widest
   marker, and the marker naming what is missing.
   */
  ghost predicate Prints(s: Section, quota: int, text: Bytes, dropped: nat) {
    var head, tail := "## " + s.title + "\n```\n", "\n```\n";
    var allowance, reserve := quota - |head| - |tail|, |Marker(|s.content|)|;
    if s.content == "" then text == "" && dropped == 0
    else if |s.content| <= allowance then text == head + s.content + tail && dropped == 0
    else if reserve > allowance then text == "" && dropped == |s.content|
    else exists body: Bytes ::
      && CutBody(s.content, body, dropped) && text == head + body + tail
      && LongestLines(s.content, allowance - reserve, |s.content| - dropped)
  }

  lemma RenderPrints(s: Section, quota: int)
    ensures Prints(s, quota, Render(s, quota).text, Render(s, quota).dropped)
  {
    var allowance := quota - |Head(s)| - |TAIL|;
    MarkerNames(|s.content|);
    BodyFits(s.content, allowance);
  }

  /** A section that is not empty leaves no block exactly if its quota holds no marker and not all of it. */
  lemma OmittedExactly(s: Section, quota: int)
    requires s.content != ""
    ensures Render(s, quota).text == "" <==>
      var allowance := quota - |s.title| - 13; |s.content| > allowance && |Marker(|s.content|)| > allowance
  {
    RenderPrints(s, quota);
    assert |Head(s)| == |s.title| + 8 && |TAIL| == 5;
  }

  // ----- the blocks of a group -----

  function TotalLength(blocks: seq<Bytes>): nat {
    if blocks == [] then 0 else TotalLength(blocks[..|blocks| - 1]) + |blocks[|blocks| - 1]|
  }

  /** The blocks to print: omitted sections leave no block. */
  function Blocks(sections: seq<Section>, quotas: seq<nat>): seq<Bytes>
    requires |sections| == |quotas|
  {
    if sections == [] then []
    else
      var n := |sections| - 1;
      var block := Render(sections[n], quotas[n]).text;
      Blocks(sections[..n], quotas[..n]) + if block == "" then [] else [block]
  }

  function Dropped(sections: seq<Section>, quotas: seq<nat>): nat
    requires |sections| == |quotas|
  {
    if sections == [] then 0
    else
      var n := |sections| - 1;
      Dropped(sections[..n], quotas[..n]) + Render(sections[n], quotas[n]).dropped
  }

  /** Every section that has content, unabridged. */
  function VerbatimBlocks(sections: seq<Section>): seq<Bytes> {
    if sections == [] then []
    else
      var n := |sections| - 1;
      VerbatimBlocks(sections[..n]) + if sections[n].content == "" then [] else [Verbatim(sections[n])]
  }

  lemma {:induction false} BlocksFit(sections: seq<Section>, quotas: seq<nat>)
    requires |sections| == |quotas|
    ensures TotalLength(Blocks(sections, quotas)) <= Total(quotas)
  {
    if sections != [] {
      var n := |sections| - 1;
      BlocksFit(sections[..n], quotas[..n]);
      RenderFits(sections[n], quotas[n]);
      var init, block := Blocks(sections[..n], quotas[..n]), Render(sections[n], quotas[n]).text;
      assert (init + [block])[..|init|] == init;
      assert init + [] == init;
    }
  }

  /** Nothing is dropped exactly when every section fits its quota. */
  lemma {:induction false} DroppedNothing(sections: seq<Section>, quotas: seq<nat>)
    requires |sections| == |quotas|
    ensures Dropped(sections, quotas) == 0 <==> forall i | 0 <= i < |sections| :: Size(sections[i]) <= quotas[i]
    ensures Dropped(sections, quotas) == 0 ==> Blocks(sections, quotas) == VerbatimBlocks(sections)
  {
    if sections != [] {
      var n := |sections| - 1;
      DroppedNothing(sections[..n], quotas[..n]);
      RenderFits(sections[n], quotas[n]);
      RenderVerbatim(sections[n], quotas[n]);
      assert Dropped(sections, quotas)
          == Dropped(sections[..n], quotas[..n]) + Render(sections[n], quotas[n]).dropped;
      assert forall i | 0 <= i < n :: sections[..n][i] == sections[i] && quotas[..n][i] == quotas[i];
    }
  }

  lemma RenderVerbatim(s: Section, quota: nat)
    ensures Render(s, quota).dropped == 0 ==> Render(s, quota).text == Verbatim(s)
  {
    RenderFits(s, quota);
  }

  /** The verbatim blocks take exactly the sizes the budget is split over. */
  lemma {:induction false} VerbatimLength(sections: seq<Section>)
    ensures TotalLength(VerbatimBlocks(sections)) == Total(Sizes(sections))
  {
    if sections != [] {
      var n := |sections| - 1;
      VerbatimLength(sections[..n]);
      assert Sizes(sections)[..n] == Sizes(sections[..n]);
      var init, block := VerbatimBlocks(sections[..n]), Verbatim(sections[n]);
      assert (init + [block])[..|init|] == init;
      assert init + [] == init;
    }
  }

  /** The group as a whole under a fair split of a non-negative budget. */
  lemma GroupFits(sections: seq<Section>, budget: nat, quotas: seq<nat>)
    requires FairShare(Sizes(sections), budget, quotas)
    ensures |quotas| == |sections|
    ensures TotalLength(Blocks(sections, quotas)) <= budget
    ensures Dropped(sections, quotas) == 0 <==> Total(Sizes(sections)) <= budget
    ensures Dropped(sections, quotas) == 0 <==> Blocks(sections, quotas) == VerbatimBlocks(sections)
  {
    var sizes := Sizes(sections);
    FairShareFits(sizes, budget, quotas);
    BlocksFit(sections, quotas);
    DroppedNothing(sections, quotas);
    VerbatimLength(sections);
    if Total(sizes) > budget {
      FairShareCuts(sizes, budget, quotas);
      var k :| 0 <= k < |sizes| && quotas[k] < sizes[k];
      assert sizes[k] == Size(sections[k]);
    }
  }

  lemma NextBlock(sections: seq<Section>, quotas: seq<nat>, i: nat)
    requires |sections| == |quotas| && i < |sections|
    ensures var block := Render(sections[i], quotas[i]);
      var before := Blocks(sections[..i], quotas[..i]);
      && Blocks(sections[..i + 1], quotas[..i + 1]) == before + (if block.text == "" then [] else [block.text])
      && Dropped(sections[..i + 1], quotas[..i + 1]) == Dropped(sections[..i], quotas[..i]) + block.dropped
      && TotalLength(before + [block.text]) == TotalLength(before) + |block.text|
  {
    assert sections[..i + 1][..i] == sections[..i] && quotas[..i + 1][..i] == quotas[..i];
    var before, block := Blocks(sections[..i], quotas[..i]), Render(sections[i], quotas[i]);
    assert (before + [block.text])[..|before|] == before;
  }

  /** What the loop has after i sections. */
  ghost predicate Printed(sections: seq<Section>, quotas: seq<nat>, i: nat, rendered: seq<Bytes>, payload: nat,
                          dropped: nat)
    requires |sections| == |quotas| && i <= |sections|
  {
    && rendered == Blocks(sections[..i], quotas[..i]) && payload == TotalLength(rendered)
    && dropped == Dropped(sections[..i], quotas[..i])
  }

  lemma PrintedNext(sections: seq<Section>, quotas: seq<nat>, i: nat, rendered: seq<Bytes>, payload: nat, dropped: nat)
    requires |sections| == |quotas| && i < |sections| && Printed(sections, quotas, i, rendered, payload, dropped)
    ensures var block := Render(sections[i], quotas[i]);
      if block.text == "" then Printed(sections, quotas, i + 1, rendered, payload, dropped + block.dropped)
      else Printed(sections, quotas, i + 1, rendered + [block.text], payload + |block.text|, dropped + block.dropped)
  {
    NextBlock(sections, quotas, i);
    assert rendered + [] == rendered;
  }

  ghost predicate Ascending(at: seq<nat>) { forall i, j | 0 <= i < j < |at| :: at[i] < at[j] }

  /** blocks are printed of the first sections, one by one; rendered are the ones not empty, at the places in at. */
  ghost predicate PrintedAt(sections: seq<Section>, quotas: seq<nat>, blocks: seq<Cut>, at: seq<nat>,
                            rendered: seq<Bytes>)
  {
    && |blocks| <= |sections| && |blocks| <= |quotas| && |at| == |rendered| && Ascending(at)
    && (forall i | 0 <= i < |blocks| :: Prints(sections[i], quotas[i], blocks[i].text, blocks[i].dropped))
    && (forall j | 0 <= j < |at| :: at[j] < |blocks| && blocks[at[j]].text != "" && rendered[j] == blocks[at[j]].text)
    && forall i: nat | i < |blocks| && i !in at :: blocks[i].text == ""
  }

  function Drops(blocks: seq<Cut>): seq<nat> { seq(|blocks|, i requires 0 <= i < |blocks| => blocks[i].dropped) }

  lemma DropsMore(blocks: seq<Cut>, block: Cut)
    ensures Total(Drops(blocks + [block])) == Total(Drops(blocks)) + block.dropped
  {
    assert Drops(blocks + [block]) == Drops(blocks) + [block.dropped];
    TotalMeans(Drops(blocks), block.dropped);
  }

  lemma PrintedMore(sections: seq<Section>, quotas: seq<nat>, blocks: seq<Cut>, at: seq<nat>, rendered: seq<Bytes>,
                    block: Cut)
    returns (at': seq<nat>)
    requires PrintedAt(sections, quotas, blocks, at, rendered) && |blocks| < |sections| && |blocks| < |quotas|
    requires Prints(sections[|blocks|], quotas[|blocks|], block.text, block.dropped)
    ensures PrintedAt(sections, quotas, blocks + [block], at', rendered + if block.text == "" then [] else [block.text])
  {
    if block.text == "" {
      at' := at;
      assert rendered + [] == rendered;
    } else {
      at' := at + [|blocks|];
      forall i: nat | i < |blocks| + 1 && i !in at' ensures i < |blocks| && i !in at {
        assert at'[|at|] == |blocks|;
      }
    }
  }

  lemma {:induction false} BlocksPrint(sections: seq<Section>, quotas: seq<nat>, m: nat)
    returns (blocks: seq<Cut>, at: seq<nat>)
    requires |sections| == |quotas| && m <= |sections|
    ensures |blocks| == m && PrintedAt(sections, quotas, blocks, at, Blocks(sections[..m], quotas[..m]))
    ensures Dropped(sections[..m], quotas[..m]) == Total(Drops(blocks))
  {
    if m == 0 {
      blocks, at := [], [];
    } else {
      var n := m - 1;
      var block := Render(sections[n], quotas[n]);
      var before, places := BlocksPrint(sections, quotas, n);
      NextBlock(sections, quotas, n);
      RenderPrints(sections[n], quotas[n]);
      at := PrintedMore(sections, quotas, before, places, Blocks(sections[..n], quotas[..n]), block);
      blocks := before + [block];
      DropsMore(before, block);
    }
  }

  /** The group's sections are printed under fair quotas, in order, and the bytes left out are added up. */
  ghost predicate FairPrint(sections: seq<Section>, budget: nat, rendered: seq<Bytes>, dropped: nat) {
    exists quotas | |quotas| == |sections| ::
      FairShare(Sizes(sections), budget, quotas) && PrintedUnder(sections, quotas, rendered, dropped)
  }

  ghost predicate PrintedUnder(sections: seq<Section>, quotas: seq<nat>, rendered: seq<Bytes>, dropped: nat)
    requires |sections| == |quotas|
  {
    exists blocks, at ::
      |blocks| == |sections| && PrintedAt(sections, quotas, blocks, at, rendered) && dropped == Total(Drops(blocks))
  }

  /** What is printed for a group: every section fitted into its fair share of the budget. */
  ghost predicate FairBlocks(sections: seq<Section>, budget: nat, rendered: seq<Bytes>, dropped: nat) {
    exists quotas | |quotas| == |sections| ::
      && FairShare(Sizes(sections), budget, quotas)
      && rendered == Blocks(sections, quotas) && dropped == Dropped(sections, quotas)
  }

  method RenderSections(sections: seq<Section>, quotas: seq<nat>)
    returns (rendered: seq<Bytes>, payload: nat, dropped: nat)
    requires |sections| == |quotas|
    ensures rendered == Blocks(sections, quotas) && dropped == Dropped(sections, quotas)
    ensures payload == TotalLength(rendered)
  {
    rendered, payload, dropped := [], 0, 0;
    for i := 0 to |sections|
      invariant Printed(sections, quotas, i, rendered, payload, dropped)
    {
      PrintedNext(sections, quotas, i, rendered, payload, dropped);
      var block := Render(sections[i], quotas[i]);
      dropped := dropped + block.dropped;
      if block.text != "" {
        payload := payload + |block.text|;
        rendered := rendered + [block.text];
      }
    }
    assert sections[..|sections|] == sections && quotas[..|quotas|] == quotas;
  }

  /** The diff part of assembleGroupPrompt. */
  method AssembleDiffs(sections: seq<Section>) returns (rendered: seq<Bytes>, payload: nat, dropped: nat)
    ensures FairBlocks(sections, GROUP_DIFF_BUDGET_BYTES, rendered, dropped)
    ensures FairPrint(sections, 1024 * 1024, rendered, dropped)
    ensures payload == TotalLength(rendered) <= 1024 * 1024
    ensures dropped == 0 <==> Total(Sizes(sections)) <= 1024 * 1024
    ensures dropped == 0 <==> rendered == VerbatimBlocks(sections)
  {
    var sizes := DiffSectionSizes(sections);
    var quotas := AllocateDiffQuotas(sizes, GROUP_DIFF_BUDGET_BYTES);
    GroupFits(sections, GROUP_DIFF_BUDGET_BYTES, quotas);
    rendered, payload, dropped := RenderSections(sections, quotas);
    ghost var blocks, at := BlocksPrint(sections, quotas, |sections|);
    assert sections[..|sections|] == sections && quotas[..|quotas|] == quotas;
    assert PrintedUnder(sections, quotas, rendered, dropped);
  }
}
