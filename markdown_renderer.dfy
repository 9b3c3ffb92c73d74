/**
 * How fenced code blocks of an assistant message are rendered
 * (static/js/markdown-renderer.js). The markdown parser is abstracted into the
 * list of code blocks it produces; the diagram engine into the wrappers it
 * leaves behind. What is modelled is the block classification, the scan for
 * diagram fences that are already closed in the streamed text, the per-block
 * decision, and the string-keyed cache of rendered diagrams.
 */
module Markdown {
  import opened Wrappers
  import opened Text

  // ---------------------------------------------------------------------------
  // Diagram classification

  /** The alternatives of `MERMAID_KEYWORDS`. */
  const Keywords: seq<string> := ["graph", "flowchart", "sequenceDiagram", "classDiagram", "stateDiagram",
    "erDiagram", "gantt", "pie", "gitGraph", "journey", "mindmap", "timeline", "quadrantChart",
    "requirementDiagram", "C4Context"]

  /** `MERMAID_KEYWORDS.test(code)`: an anchored, case-insensitive prefix test with no word boundary. */
  predicate MatchesKeyword(code: string) {
    StartsWithAnyOf(code, Keywords)
  }

  /** The alternation tried left to right: some alternative is a case-insensitive prefix of `code`. */
  predicate StartsWithAnyOf(code: string, alternatives: seq<string>) {
    alternatives != [] && (StartsWithIgnoringCase(code, alternatives[0]) || StartsWithAnyOf(code, alternatives[1..]))
  }

  /** The alternation accepts exactly when one of its alternatives is a prefix. */
  lemma {:induction false} StartsWithAnyOfMeans(code: string, alternatives: seq<string>)
    ensures StartsWithAnyOf(code, alternatives) <==> exists k :: k in alternatives && StartsWithIgnoringCase(code, k)
  {
    if alternatives != [] {
      StartsWithAnyOfMeans(code, alternatives[1..]);
      assert alternatives == [alternatives[0]] + alternatives[1..];
    }
  }

  /** A block is a diagram iff its language tag is `mermaid` or its trimmed text starts with a keyword. */
  predicate IsDiagram(lang: string, code: string) {
    lang == "mermaid" || MatchesKeyword(code)
  }

  /** Changing the ASCII case of the code never changes whether the keyword test accepts it. */
  lemma KeywordTestIgnoresCase(code: string)
    ensures MatchesKeyword(code) <==> MatchesKeyword(LowerAll(code))
  {
    StartsWithAnyOfMeans(code, Keywords);
    StartsWithAnyOfMeans(LowerAll(code), Keywords);
    forall k | k in Keywords
      ensures StartsWithIgnoringCase(code, k) <==> StartsWithIgnoringCase(LowerAll(code), k)
    {
      LowerAllKeepsPrefixMatch(code, k);
    }
  }

  /**
   * The keyword test is a bare prefix test and overrides the language tag: a
   * Python block whose text begins with `pieces` is classified as a diagram.
   */
  lemma KeywordOverridesLanguageTag()
    ensures IsDiagram("python", "pieces = [1, 2]")
  {
    assert Keywords[7] == "pie";
    assert StartsWithIgnoringCase("pieces = [1, 2]", "pie");
    StartsWithAnyOfMeans("pieces = [1, 2]", Keywords);
  }

  /** A Python block that starts with no keyword keeps its copy button. */
  lemma PlainCodeIsNoDiagram()
    ensures !IsDiagram("python", "x = 1")
  {
    StartsWithAnyOfMeans("x = 1", Keywords);
    forall k | k in Keywords ensures !StartsWithIgnoringCase("x = 1", k) {
      if |k| <= 5 {
        assert k[0] == 'g' || k[0] == 'p';
        assert LowerAscii('x') != LowerAscii(k[0]);
      }
    }
  }

  // ---------------------------------------------------------------------------
  // The regular expressions, as scans

  /** `\w` */
  predicate IsWordChar(c: char) {
    ('a' <= c <= 'z') || ('A' <= c <= 'Z') || ('0' <= c <= '9') || c == '_'
  }

  /** The end of the longest run of word characters starting at `i`. */
  function WordRunEnd(s: string, i: nat): (j: nat)
    requires i <= |s|
    ensures i <= j <= |s|
    ensures forall k :: i <= k < j ==> IsWordChar(s[k])
    ensures j == |s| || !IsWordChar(s[j])
    decreases |s| - i
  {
    if i == |s| || !IsWordChar(s[i]) then i else WordRunEnd(s, i + 1)
  }

  /** `language-` followed by a word character starts at position `p` of the class name. */
  predicate TagStart(c: string, p: nat) {
    p + 10 <= |c| && c[p..p + 9] == "language-" && IsWordChar(c[p + 9])
  }

  /** No `language-` tag starts in the class name from `i` up to (not including) `p`. */
  predicate NoTagBetween(c: string, i: nat, p: nat) {
    forall q :: i <= q < p ==> !TagStart(c, q)
  }

  /** `language-(\w+)` applied to a class name: the first tag with at least one word character, or "". */
  function LanguageOf(className: string): (r: string)
    ensures forall k :: 0 <= k < |r| ==> IsWordChar(r[k])
  {
    LanguageFrom(className, 0)
  }

  function LanguageFrom(c: string, i: nat): (r: string)
    ensures forall k :: 0 <= k < |r| ==> IsWordChar(r[k])
    decreases |c| - i
  {
    if i + 10 > |c| then ""
    else if c[i..i + 9] == "language-" && IsWordChar(c[i + 9]) then c[i + 9..WordRunEnd(c, i + 9)]
    else LanguageFrom(c, i + 1)
  }

  /**
   * `tag` is the word run after the `language-` at `p`, the first one at or after
   * `i` that is followed by a word character; it ends at the first non-word
   * character or at the end of the class name.
   */
  predicate FirstTagAt(c: string, i: nat, p: nat, tag: string) {
    i <= p && TagStart(c, p) && NoTagBetween(c, i, p) && tag == c[p + 9..WordRunEnd(c, p + 9)]
  }

  /**
   * The tag is found whenever the class name has `language-` followed by a word
   * character; a tag found is the word run after the first such `language-`,
   * ending at the first non-word character or at the end.
   */
  lemma LanguageOfIsFirstTag(className: string)
    ensures forall p: nat :: TagStart(className, p) ==> LanguageOf(className) != ""
    ensures LanguageOf(className) != "" ==> exists p: nat :: FirstTagAt(className, 0, p, LanguageOf(className))
  {
    LanguageFromIsFirstTag(className, 0);
  }

  lemma {:induction false} LanguageFromIsFirstTag(c: string, i: nat)
    ensures forall p: nat :: i <= p && TagStart(c, p) ==> LanguageFrom(c, i) != ""
    ensures LanguageFrom(c, i) != "" ==> exists p: nat :: FirstTagAt(c, i, p, LanguageFrom(c, i))
    decreases |c| - i
  {
    if i + 10 > |c| {
      assert LanguageFrom(c, i) == "";
      assert forall p: nat :: i <= p ==> !TagStart(c, p);
    } else if TagStart(c, i) {
      var r := c[i + 9..WordRunEnd(c, i + 9)];
      assert LanguageFrom(c, i) == r;
      assert |r| > 0 && FirstTagAt(c, i, i, r);
    } else {
      var r := LanguageFrom(c, i + 1);
      assert LanguageFrom(c, i) == r;
      LanguageFromIsFirstTag(c, i + 1);
      forall p: nat | i <= p && TagStart(c, p) ensures r != "" {
        assert p != i;
      }
      if r != "" {
        var p: nat :| FirstTagAt(c, i + 1, p, r);
        assert FirstTagAt(c, i, p, r);
      }
    }
  }

  /** The class that `marked` gives a `mermaid` block yields the tag `mermaid`. */
  lemma MermaidClassIsMermaid()
    ensures LanguageOf("language-mermaid") == "mermaid"
  {
    var c := "language-mermaid";
    assert c[0..9] == "language-" && IsWordChar(c[9]);
    assert WordRunEnd(c, 9) == 16;
    assert c[9..16] == "mermaid";
  }

  /** A maximal run of word characters ends where the first non-word character stands. */
  lemma {:induction false} WordRunEndAt(s: string, i: nat, j: nat)
    requires i <= j < |s| && !IsWordChar(s[j])
    requires forall k :: i <= k < j ==> IsWordChar(s[k])
    ensures WordRunEnd(s, i) == j
    decreases j - i
  {
    if i < j {
      WordRunEndAt(s, i + 1, j);
    }
  }

  /** A closing or opening fence "```" starts at `q`. */
  predicate FenceAt(s: string, q: int) {
    0 <= q && q + 3 <= |s| && s[q..q + 3] == "```"
  }

  /** The lazy `[\s\S]*?```` part: the first fence at or after `i`. */
  function FindFence(s: string, i: nat): (r: Option<nat>)
    ensures r.Some? ==> i <= r.value && FenceAt(s, r.value)
    ensures r.Some? ==> forall k :: i <= k < r.value ==> !FenceAt(s, k)
    ensures r.None? ==> forall k :: i <= k ==> !FenceAt(s, k)
    decreases |s| - i
  {
    if i + 3 > |s| then None
    else if FenceAt(s, i) then Some(i)
    else FindFence(s, i + 1)
  }

  /** One match of ```` ```(\w*)\n([\s\S]*?)``` ````: the two groups and where the match ends. */
  datatype FenceMatch = FenceMatch(lang: string, body: string, end: nat)

  /** The reference meaning of "the pattern matches at `p` with these groups". */
  predicate IsMatch(s: string, p: nat, lang: string, body: string) {
    && (forall k :: 0 <= k < |lang| ==> IsWordChar(lang[k]))
    && p + |lang| + |body| + 7 <= |s|
    && s[p..p + |lang| + |body| + 7] == "```" + lang + "\n" + body + "```"
  }

  /**
   * The match attempt at position `p`. The `\w*` run can only be followed by the
   * newline when it is maximal, so no backtracking is needed; the body is closed
   * by the first fence after the newline.
   */
  function MatchAt(s: string, p: nat): (r: Option<FenceMatch>)
    ensures r.Some? ==> IsMatch(s, p, r.value.lang, r.value.body)
    ensures r.Some? ==> r.value.end == p + |r.value.lang| + |r.value.body| + 7
  {
    if !FenceAt(s, p) then None
    else
      var j := WordRunEnd(s, p + 3);
      if j < |s| && s[j] == '\n' then
        match FindFence(s, j + 1)
        case None => None
        case Some(q) =>
          FencedSlice(s, p, j, q);
          Some(FenceMatch(s[p + 3..j], s[j + 1..q], q + 3))
      else None
  }

  /**
   * `MatchAt` is the regular expression's own answer: it succeeds whenever some
   * pair of groups fits at `p`, and then its body is the shortest one (the lazy
   * quantifier's choice), with the only language tag that can fit.
   */
  lemma MatchAtIsLazyMatch(s: string, p: nat, lang: string, body: string)
    requires IsMatch(s, p, lang, body)
    ensures MatchAt(s, p).Some?
    ensures MatchAt(s, p).value.lang == lang
    ensures |MatchAt(s, p).value.body| <= |body|
  {
    var j := p + 3 + |lang|;
    var q0 := j + 1 + |body|;
    MatchShape(s, p, lang, body);
    forall k | p + 3 <= k < j ensures IsWordChar(s[k]) {
      assert s[k] == s[p + 3..j][k - p - 3];
    }
    WordRunEndAt(s, p + 3, j);
    assert FenceAt(s, q0);
  }

  /** The text from an opening fence to a closing one, cut into the pieces of a match. */
  lemma FencedSlice(s: string, p: nat, j: nat, q: nat)
    requires FenceAt(s, p) && p + 3 <= j < q && FenceAt(s, q) && s[j] == '\n'
    ensures s[p..q + 3] == "```" + s[p + 3..j] + "\n" + s[j + 1..q] + "```"
  {
    SliceJoin(s, p, q, q + 3);
    SliceJoin(s, p, j + 1, q);
    SliceJoin(s, p, j, j + 1);
    SliceJoin(s, p, p + 3, j);
    assert s[j..j + 1] == "\n";
  }

  /** The pieces of a match, located in the text. */
  lemma MatchShape(s: string, p: nat, lang: string, body: string)
    requires IsMatch(s, p, lang, body)
    ensures s[p..p + 3] == "```"
    ensures s[p + 3..p + 3 + |lang|] == lang
    ensures s[p + 3 + |lang|] == '\n'
    ensures s[p + 4 + |lang| + |body|..p + 7 + |lang| + |body|] == "```"
  {
    var j := p + 3 + |lang|;
    var e := j + |body| + 4;
    var t := "```" + lang;
    var u := t + "\n";
    SliceParts(s, p, e, u + body, "```");
    SliceParts(s, p, j + 1 + |body|, u, body);
    SliceParts(s, p, j + 1, t, "\n");
    SliceParts(s, p, j, "```", lang);
    assert s[j] == s[j..j + 1][0];
  }

  /**
   * `fenceRegex.exec(content)` with `lastIndex == from`: the match at the first
   * position from `from` onwards where the pattern matches, paired with that position.
   */
  function Exec(s: string, from: nat): (r: Option<(nat, FenceMatch)>)
    ensures r.Some? ==> from <= r.value.0 && MatchAt(s, r.value.0) == Some(r.value.1)
    ensures r.Some? ==> forall q :: from <= q < r.value.0 ==> MatchAt(s, q).None?
    ensures r.None? ==> forall q :: from <= q ==> MatchAt(s, q).None?
    decreases |s| - from
  {
    if from >= |s| then None
    else
      match MatchAt(s, from)
      case Some(m) => Some((from, m))
      case None => Exec(s, from + 1)
  }

  /** The diagram sources of the matches found from `from` onwards, scanning left to right without overlap. */
  function CompletedFrom(s: string, from: nat): set<string>
    decreases |s| - from
  {
    match Exec(s, from)
    case None => {}
    case Some((p, m)) =>
      var code := Trim(m.body);
      (if IsDiagram(m.lang, code) then {code} else {}) + CompletedFrom(s, m.end)
  }

  /** One turn of the `exec` loop: the match found moves the scan forward and contributes its source when it is a diagram. */
  lemma CompletedStep(s: string, from: nat)
    requires Exec(s, from).Some?
    ensures var m := Exec(s, from).value.1;
      && from < m.end <= |s|
      && CompletedFrom(s, from) == (if IsDiagram(m.lang, Trim(m.body)) then {Trim(m.body)} else {}) + CompletedFrom(s, m.end)
  {
  }

  /** A closed diagram fence at `p` whose trimmed body is `code`. */
  predicate ClosedDiagramAt(s: string, p: nat, code: string) {
    MatchAt(s, p).Some? && Trim(MatchAt(s, p).value.body) == code && IsDiagram(MatchAt(s, p).value.lang, code)
  }

  /** Every completed source is the trimmed body of a closed diagram fence in the text. */
  lemma {:induction false} CompletedAreClosedDiagramFences(s: string, from: nat, code: string)
    requires code in CompletedFrom(s, from)
    ensures exists p :: from <= p && ClosedDiagramAt(s, p, code)
    decreases |s| - from
  {
    var (p, m) := Exec(s, from).value;
    if IsDiagram(m.lang, Trim(m.body)) && code == Trim(m.body) {
      assert ClosedDiagramAt(s, p, code);
    } else {
      assert code in CompletedFrom(s, m.end);
      CompletedAreClosedDiagramFences(s, m.end, code);
    }
  }

  /** A fence can only start at a backtick. */
  lemma NoBacktickNoFence(s: string, a: nat, b: nat)
    requires forall k :: a <= k < b && k < |s| ==> s[k] != '`'
    ensures forall k :: a <= k < b ==> !FenceAt(s, k)
  {
    forall k | a <= k < b ensures !FenceAt(s, k) {
      if k + 3 <= |s| {
        assert s[k..k + 3][0] == s[k];
      }
    }
  }

  /** Positions where no fence starts are skipped by the lazy close search. */
  lemma {:induction false} FindFenceSkips(s: string, from: nat, to: nat)
    requires from <= to <= |s|
    requires forall k :: from <= k < to ==> !FenceAt(s, k)
    ensures FindFence(s, from) == FindFence(s, to)
    decreases |s| - from
  {
    if from < to {
      FindFenceSkips(s, from + 1, to);
    }
  }

  /** Positions where no fence starts are skipped by `exec`. */
  lemma {:induction false} ExecSkips(s: string, from: nat, to: nat)
    requires from <= to <= |s|
    requires forall k :: from <= k < to ==> !FenceAt(s, k)
    ensures Exec(s, from) == Exec(s, to)
    decreases |s| - from
  {
    if from < to {
      ExecSkips(s, from + 1, to);
    }
  }

  /** A text with no fence from `from` onwards yields nothing completed. */
  lemma NoFenceNothingCompleted(s: string, from: nat)
    requires from <= |s|
    requires forall k :: from <= k ==> !FenceAt(s, k)
    ensures CompletedFrom(s, from) == {}
  {
    ExecSkips(s, from, |s|);
  }

  // ---------------------------------------------------------------------------
  // Per-block decision

  /** A `pre code` element of the parsed message: its class name and its text content. */
  datatype CodeBlock = CodeBlock(className: string, text: string)

  /** A rendered diagram wrapper: the source the engine recorded on it, its drawing, and whether it carries action buttons. */
  datatype Wrapper = Wrapper(originalCode: Option<string>, drawing: string, hasActions: bool)

  /** What `render` does with one block. */
  datatype BlockAction =
    | CopyButton
    | CachedClone(code: string, artifact: Wrapper)
    | EngineRender(code: string)
    | Placeholder(raw: string)

  /**
   * The decision `render` makes for a block, given the streaming flag, the set of
   * completed diagram sources and the cache.
   */
  function Decide(block: CodeBlock, streaming: bool, completed: set<string>, cache: map<string, Wrapper>): (a: BlockAction)
    ensures a.CopyButton? <==> !IsDiagram(LanguageOf(block.className), Trim(block.text))
    ensures a.Placeholder? <==>
      IsDiagram(LanguageOf(block.className), Trim(block.text)) && streaming && Trim(block.text) !in completed
    ensures a.Placeholder? ==> a.raw == block.text
    ensures a.CachedClone? ==> a.code == Trim(block.text) && a.code in cache && a.artifact == cache[a.code]
    ensures a.EngineRender? ==> a.code == Trim(block.text) && a.code !in cache
  {
    var lang := LanguageOf(block.className);
    var code := Trim(block.text);
    if !IsDiagram(lang, code) then CopyButton
    else if !streaming || code in completed then
      if code in cache then CachedClone(code, cache[code]) else EngineRender(code)
    else Placeholder(block.text)
  }

  /** In final mode no block becomes a placeholder: every diagram is drawn from the cache or by the engine. */
  lemma FinalModeDrawsEveryDiagram(block: CodeBlock, completed: set<string>, cache: map<string, Wrapper>)
    ensures IsDiagram(LanguageOf(block.className), Trim(block.text)) ==>
      Decide(block, false, completed, cache).CachedClone? || Decide(block, false, completed, cache).EngineRender?
  {
  }

  /** The decisions for a list of blocks, one per block in order. */
  function Decisions(blocks: seq<CodeBlock>, streaming: bool, completed: set<string>, cache: map<string, Wrapper>): seq<BlockAction> {
    if blocks == [] then []
    else Decisions(blocks[..|blocks| - 1], streaming, completed, cache) + [Decide(blocks[|blocks| - 1], streaming, completed, cache)]
  }

  /** The list of decisions is the decision of each block. */
  lemma {:induction false} DecisionsPointwise(blocks: seq<CodeBlock>, streaming: bool, completed: set<string>, cache: map<string, Wrapper>)
    ensures |Decisions(blocks, streaming, completed, cache)| == |blocks|
    ensures forall i :: 0 <= i < |blocks| ==> Decisions(blocks, streaming, completed, cache)[i] == Decide(blocks[i], streaming, completed, cache)
  {
    if blocks != [] {
      var init := blocks[..|blocks| - 1];
      DecisionsPointwise(init, streaming, completed, cache);
      forall i | 0 <= i < |blocks| ensures Decisions(blocks, streaming, completed, cache)[i] == Decide(blocks[i], streaming, completed, cache) {
        if i < |init| {
          assert blocks[i] == init[i];
        }
      }
    }
  }

  /** In final mode the decision does not look at the completed set. */
  lemma FinalModeIgnoresCompleted(block: CodeBlock, c1: set<string>, c2: set<string>, cache: map<string, Wrapper>)
    ensures Decide(block, false, c1, cache) == Decide(block, false, c2, cache)
  {
  }

  /** The copy-button decision does not depend on the mode, the completed set or the cache. */
  lemma CopyButtonIndependentOfMode(block: CodeBlock, streaming: bool, completed: set<string>, cache: map<string, Wrapper>)
    ensures Decide(block, streaming, completed, cache).CopyButton? == Decide(block, false, {}, map[]).CopyButton?
  {
  }

  /** The first wrapper whose diagram carries `code` as its original source. */
  function FirstWrapperFor(wrappers: seq<Wrapper>, code: string): (r: Option<nat>)
    ensures r.Some? ==> r.value < |wrappers| && wrappers[r.value].originalCode == Some(code)
    ensures r.Some? ==> forall k :: 0 <= k < r.value ==> wrappers[k].originalCode != Some(code)
    ensures r.None? ==> forall k :: 0 <= k < |wrappers| ==> wrappers[k].originalCode != Some(code)
  {
    if wrappers == [] then None
    else if wrappers[0].originalCode == Some(code) then Some(0)
    else
      match FirstWrapperFor(wrappers[1..], code)
      case None => None
      case Some(k) => Some(k + 1)
  }

  class MarkdownRenderer {
    /** `_mermaidCache`: rendered diagrams keyed by their exact source, without action buttons. */
    var cache: map<string, Wrapper>

    ghost predicate Valid()
      reads this
    {
      forall code :: code in cache ==> !cache[code].hasActions && cache[code].originalCode == Some(code)
    }

    constructor()
      ensures cache == map[] && Valid()
    {
      cache := map[];
    }

    /** `_findCompletedMermaidBlocks(content)`: the `exec` loop over the fence pattern. */
    method FindCompletedMermaidBlocks(content: string) returns (completed: set<string>)
      ensures completed == CompletedFrom(content, 0)
    {
      completed := {};
      var lastIndex: nat := 0;
      var found := Exec(content, lastIndex);
      while found.Some?
        invariant lastIndex <= |content|
        invariant found == Exec(content, lastIndex)
        invariant completed + CompletedFrom(content, lastIndex) == CompletedFrom(content, 0)
        decreases |content| - lastIndex
      {
        var (_, m) := found.value;
        CompletedStep(content, lastIndex);
        var code := Trim(m.body);
        if m.lang == "mermaid" || MatchesKeyword(code) {
          completed := completed + {code};
        }
        lastIndex := m.end;
        found := Exec(content, lastIndex);
      }
    }

    /**
     * `render(element, content, isStreaming)`, block by block. In streaming mode
     * the completed set is computed from the raw content; the cache is only read.
     */
    method Render(content: string, blocks: seq<CodeBlock>, streaming: bool) returns (actions: seq<BlockAction>)
      ensures |actions| == |blocks|
      ensures forall i :: 0 <= i < |blocks| ==> actions[i] == Decide(blocks[i], streaming, CompletedFrom(content, 0), cache)
      ensures Valid() ==> forall i :: 0 <= i < |actions| && actions[i].CachedClone? ==>
        !actions[i].artifact.hasActions && actions[i].artifact.originalCode == Some(actions[i].code)
    {
      var completed: set<string> := {};
      if streaming {
        completed := FindCompletedMermaidBlocks(content);
      }
      ghost var done := CompletedFrom(content, 0);
      actions := [];
      for i := 0 to |blocks|
        invariant actions == Decisions(blocks[..i], streaming, done, cache)
      {
        var action := Decide(blocks[i], streaming, completed, cache);
        assert action == Decide(blocks[i], streaming, done, cache) by {
          if !streaming {
            FinalModeIgnoresCompleted(blocks[i], completed, done, cache);
          }
        }
        assert blocks[..i + 1][..i] == blocks[..i];
        actions := actions + [action];
      }
      assert blocks[..|blocks|] == blocks;
      DecisionsPointwise(blocks, streaming, done, cache);
    }

    /**
     * The tail of `_renderAndCacheMermaid(pre, code)`, after the engine has run:
     * with no parent nothing is stored; otherwise the first wrapper carrying `code`
     * is stored under `code` with its actions stripped, and nothing is stored when
     * no wrapper carries it (the engine failed).
     */
    method StoreRendered(code: string, parentPresent: bool, wrappers: seq<Wrapper>)
      requires Valid()
      modifies this
      ensures Valid()
      ensures !parentPresent || FirstWrapperFor(wrappers, code).None? ==> cache == old(cache)
      ensures parentPresent && FirstWrapperFor(wrappers, code).Some? ==>
        cache == old(cache)[code := wrappers[FirstWrapperFor(wrappers, code).value].(hasActions := false)]
    {
      if !parentPresent {
        return;
      }
      for i := 0 to |wrappers|
        invariant forall k :: 0 <= k < i ==> wrappers[k].originalCode != Some(code)
        invariant cache == old(cache)
      {
        if wrappers[i].originalCode == Some(code) {
          cache := cache[code := wrappers[i].(hasActions := false)];
          return;
        }
      }
    }

    /** The cache reset of `updateMermaidTheme(theme)`: nothing happens when the diagram library is absent. */
    method UpdateMermaidTheme(mermaidLoaded: bool)
      modifies this
      ensures mermaidLoaded ==> cache == map[]
      ensures !mermaidLoaded ==> cache == old(cache)
      ensures Valid() <==> mermaidLoaded || old(Valid())
    {
      if !mermaidLoaded {
        return;
      }
      cache := map[];
    }

    /** `_mermaidCache.clear()` */
    method ClearCache()
      modifies this
      ensures cache == map[] && Valid()
    {
      cache := map[];
    }
  }


  // ---------------------------------------------------------------------------
  // A worked example: one closed and one still-open diagram fence

  const Head := "abc "
  const Open := "```mermaid\n"
  const Closed := "graph TD;A-->B\n"
  const Fence := "```"
  const Gap := " def "
  const Unclosed := "graph TD;C"
  const Sample := Head + Open + Closed + Fence + Gap + Open + Unclosed

  /** Each piece of the sample, located in the text. */
  predicate SampleShaped(s: string) {
    && |s| == 59
    && s[0..4] == Head && s[4..15] == Open && s[15..30] == Closed && s[30..33] == Fence
    && s[33..38] == Gap && s[38..49] == Open && s[49..59] == Unclosed
  }

  /** Where each piece of the sample sits. */
  lemma SampleParts(s: string)
    requires s == Sample
    ensures SampleShaped(s)
  {
    assert s[0..59] == s;
    SliceParts(s, 0, 59, Head + Open + Closed + Fence + Gap + Open, Unclosed);
    SliceParts(s, 0, 49, Head + Open + Closed + Fence + Gap, Open);
    SliceParts(s, 0, 38, Head + Open + Closed + Fence, Gap);
    SliceParts(s, 0, 33, Head + Open + Closed, Fence);
    SliceParts(s, 0, 30, Head + Open, Closed);
    SliceParts(s, 0, 15, Head, Open);
  }

  lemma SampleSkipsToFirstFence(s: string)
    requires SampleShaped(s)
    ensures Exec(s, 0) == Exec(s, 4)
  {
    forall k | 0 <= k < 4 ensures s[k] != '`' { assert s[k] == s[0..4][k]; }
    NoBacktickNoFence(s, 0, 4);
    ExecSkips(s, 0, 4);
  }

  lemma SampleFirstOpening(s: string)
    requires SampleShaped(s)
    ensures FenceAt(s, 4) && WordRunEnd(s, 7) == 14 && s[14] == '\n' && s[7..14] == "mermaid"
  {
    assert FenceAt(s, 4) by { assert s[4..7] == s[4..15][..3]; }
    assert s[14] == '\n' by { assert s[14] == s[4..15][10]; }
    assert WordRunEnd(s, 7) == 14 by {
      forall k | 7 <= k < 14 ensures IsWordChar(s[k]) { assert s[k] == s[4..15][k - 4]; }
      WordRunEndAt(s, 7, 14);
    }
    assert s[7..14] == "mermaid" by {
      forall k | 0 <= k < 7 ensures s[7..14][k] == "mermaid"[k] { assert s[7 + k] == s[4..15][3 + k]; }
    }
  }

  lemma SampleFirstClose(s: string)
    requires SampleShaped(s)
    ensures FindFence(s, 15) == Some(30)
  {
    forall k | 15 <= k < 30 ensures s[k] != '`' { assert s[k] == s[15..30][k - 15]; }
    NoBacktickNoFence(s, 15, 30);
    FindFenceSkips(s, 15, 30);
    assert s[30..33] == Fence;
  }

  lemma SampleFirstMatchAt(s: string)
    requires SampleShaped(s)
    ensures MatchAt(s, 4) == Some(FenceMatch("mermaid", Closed, 33))
  {
    SampleFirstOpening(s);
    SampleFirstClose(s);
  }

  lemma SampleFirstMatch(s: string)
    requires SampleShaped(s)
    ensures Exec(s, 0) == Some((4, FenceMatch("mermaid", Closed, 33)))
  {
    SampleSkipsToFirstFence(s);
    SampleFirstMatchAt(s);
  }

  lemma SampleSecondOpening(s: string)
    requires SampleShaped(s)
    ensures Exec(s, 33) == Exec(s, 38)
    ensures FenceAt(s, 38) && WordRunEnd(s, 41) == 48 && s[48] == '\n'
  {
    assert Exec(s, 33) == Exec(s, 38) by {
      forall k | 33 <= k < 38 ensures s[k] != '`' { assert s[k] == s[33..38][k - 33]; }
      NoBacktickNoFence(s, 33, 38);
      ExecSkips(s, 33, 38);
    }
    assert FenceAt(s, 38) by { assert s[38..41] == s[38..49][..3]; }
    assert s[48] == '\n' by { assert s[48] == s[38..49][10]; }
    assert WordRunEnd(s, 41) == 48 by {
      forall k | 41 <= k < 48 ensures IsWordChar(s[k]) { assert s[k] == s[38..49][k - 38]; }
      WordRunEndAt(s, 41, 48);
    }
  }

  lemma SampleNoFenceAfterSecond(s: string)
    requires SampleShaped(s)
    ensures forall k :: 39 <= k ==> !FenceAt(s, k)
  {
    forall k | 41 <= k < 59 ensures s[k] != '`' {
      if k < 49 { assert s[k] == s[38..49][k - 38]; } else { assert s[k] == s[49..59][k - 49]; }
    }
    NoBacktickNoFence(s, 41, 59);
    assert !FenceAt(s, 39) by { assert s[39..42][2] == s[41]; }
    assert !FenceAt(s, 40) by { assert s[40..43][2] == s[42]; }
  }

  lemma SampleNoSecondMatch(s: string)
    requires SampleShaped(s)
    ensures Exec(s, 33) == None
  {
    SampleSecondOpening(s);
    SampleNoFenceAfterSecond(s);
    FindFenceSkips(s, 49, 59);
    assert MatchAt(s, 38).None?;
    ExecSkips(s, 39, 59);
  }

  /**
   * The sample stream text with one closed and one still-open diagram fence:
   * only the closed one is completed.
   */
  lemma OnlyClosedFenceCompleted(s: string)
    requires s == Sample
    ensures CompletedFrom(s, 0) == {"graph TD;A-->B"}
  {
    SampleParts(s);
    SampleFirstMatch(s);
    SampleNoSecondMatch(s);
    TrimClosed(Closed);
    assert CompletedFrom(s, 33) == {};
  }

  lemma TrimClosed(c: string)
    requires c == Closed
    ensures Trim(c) == "graph TD;A-->B"
  {
    var w := "graph TD;A-->B";
    assert c == w + "\n";
    assert w[0] == 'g' && w[|w| - 1] == 'B';
    VisibleAsciiIsNotSpace('g');
    VisibleAsciiIsNotSpace('B');
    assert IsJsSpace('\n');
    TrimOneTrailingSpace(w, '\n');
  }


}
