module ParserExamples {
  import opened Wrappers
  import opened TokenCharacterTypes
  import opened Nodes
  import opened Readers
  import opened States
  import opened StateProperties
  import opened TreeBuilding
  import opened FarcasterParsing

  /** The post of the mixed test, as the twelve node texts it is expected to split into. */
  const MixedPostHead: string := "Hello " + "@test" + " " + "/test" + " " + "test.twitter"
  const MixedPostTail: string := " " + "test.lens" + " " + "https://test.com" + " " + "$TEST"
  const MixedPost: string := MixedPostHead + MixedPostTail

  /**
   * The twelve windows of `MixedPost`. Together they fix every one of the 63
   * characters, so the only text meeting this is `MixedPost` itself; the
   * predicate states that text window by window.
   */
  predicate IsMixedPost(t: string)
  {
    && |t| == 63
    && t[0..6] == "Hello " && t[6..11] == "@test" && t[11..12] == " " && t[12..17] == "/test"
    && t[17..18] == " " && t[18..30] == "test.twitter" && t[30..31] == " " && t[31..40] == "test.lens"
    && t[40..41] == " " && t[41..57] == "https://test.com" && t[57..58] == " " && t[58..63] == "$TEST"
  }

  lemma MixedPostFrontWindows()
    ensures |MixedPost| == 63
    ensures MixedPost[0..6] == "Hello " && MixedPost[6..11] == "@test" && MixedPost[11..12] == " "
    ensures MixedPost[12..17] == "/test" && MixedPost[17..18] == " " && MixedPost[18..30] == "test.twitter"
  {
  }

  lemma MixedPostTailWindows()
    ensures |MixedPostTail| == 33
    ensures MixedPostTail[0..1] == " " && MixedPostTail[1..10] == "test.lens" && MixedPostTail[10..11] == " "
    ensures MixedPostTail[11..27] == "https://test.com" && MixedPostTail[27..28] == " " && MixedPostTail[28..33] == "$TEST"
  {
  }

  /** A window of the second half of `a + b` is a window of `b`. */
  lemma WindowOfTail(a: string, b: string, i: nat, j: nat)
    requires i <= j <= |b|
    ensures (a + b)[|a| + i..|a| + j] == b[i..j]
  {
  }

  lemma MixedPostBackWindows()
    ensures |MixedPost| == 63
    ensures MixedPost[30..31] == " " && MixedPost[31..40] == "test.lens" && MixedPost[40..41] == " "
    ensures MixedPost[41..57] == "https://test.com" && MixedPost[57..58] == " " && MixedPost[58..63] == "$TEST"
  {
    MixedPostTailWindows();
    var a, b := MixedPostHead, MixedPostTail;
    assert |a| == 30;
    WindowOfTail(a, b, 0, 1);
    WindowOfTail(a, b, 1, 10);
    WindowOfTail(a, b, 10, 11);
    WindowOfTail(a, b, 11, 27);
    WindowOfTail(a, b, 27, 28);
    WindowOfTail(a, b, 28, 33);
  }

  lemma MixedPostWindows()
    ensures IsMixedPost(MixedPost)
  {
    MixedPostFrontWindows();
    MixedPostBackWindows();
  }

  // Each lemma below runs one stretch of the post, knowing only the windows it reads.

  lemma PlainStretch(t: string, tokens: seq<TokenCharacterType>, p: nat, q: nat, a: nat, w: string)
    requires |t| == 63 && |tokens| == 64 && a <= p <= q <= a + |w| <= 63 && t[a..a + |w|] == w
    requires forall i :: p - a <= i < q - a ==> w[i] !in {'h', '$', '@', '/', '.'}
    ensures Run(t, false, Machine(DataState, p, tokens)) == Run(t, false, Machine(DataState, q, Fill(tokens, Character, p, q)))
  {
    assert forall i :: p <= i < q ==> t[i] == w[i - a];
    PlainRun(t, false, tokens, p, q);
  }

  lemma MentionStretch(t: string, tokens: seq<TokenCharacterType>)
    requires |t| == 63 && |tokens| == 64 && t[6..11] == "@test" && t[11..12] == " "
    ensures Run(t, false, Machine(DataState, 6, tokens)) == Run(t, false, Machine(DataState, 11, Fill(tokens, UserName, 6, 11)))
  {
    assert forall i :: 6 <= i < 11 ==> t[i] == t[6..11][i - 6];
    assert t[11] == t[11..12][0];
    UserNameRun(t, false, tokens, 6);
    ScanWhileUnique(t, 7, UserNameTokens(false), 11);
  }

  lemma ChannelStretch(t: string, tokens: seq<TokenCharacterType>)
    requires |t| == 63 && |tokens| == 64 && t[11..12] == " " && t[12..17] == "/test" && t[17..18] == " "
    ensures Run(t, false, Machine(DataState, 12, tokens)) == Run(t, false, Machine(DataState, 17, Fill(tokens, Channel, 12, 17)))
  {
    assert forall i :: 12 <= i < 17 ==> t[i] == t[12..17][i - 12];
    assert t[11] == t[11..12][0] && t[17] == t[17..18][0];
    assert IsEmptyChar(t[11]) && t[12] == '/' && InClass(AsciiAlphanumericUnderscoreDash, t[13]);
    ChannelRun(t, false, tokens, 12);
    ScanWhileUnique(t, 13, AsciiAlphanumericUnderscoreDash, 17);
  }

  lemma WordBefore(t: string, dot: nat, start: nat)
    requires 1 <= start < dot < |t| && IsEmptyChar(t[start - 1])
    requires forall i :: start <= i <= dot ==> !IsEmptyChar(t[i])
    ensures WordStart(t, dot + 1) == start
  {
    WordStartUnique(t, dot + 1, start);
  }

  /** A handle's dot at `p`, after the word from `start`, followed by `suffix`, ends the handle. */
  lemma SuffixStretch(t: string, tokens: seq<TokenCharacterType>, p: nat, suffix: string, start: nat)
    requires |tokens| == |t| + 1 && p < |t| && t[p] == '.'
    requires FirstSuffix(t, p + 1, DotSuffixes) == Some(suffix) && WordStart(t, p + 1) == start
    ensures Run(t, false, Machine(DataState, p, tokens))
         == Run(t, false, Machine(DataState, p + 1 + |suffix|, Fill(tokens, CustomUser, start, p + 1 + |suffix|)))
  {
    SuffixRun(t, false, tokens, p, suffix);
  }

  lemma TwitterFollows(t: string)
    requires |t| == 63 && t[18..30] == "test.twitter"
    ensures FirstSuffix(t, 23, DotSuffixes) == Some("twitter")
  {
    assert forall i :: 23 <= i < 30 ==> t[i] == t[18..30][i - 18];
    FollowedByMatchesEachChar(t, 23, "twitter", true);
    assert forall i :: 0 <= i < 7 ==> t[23 + i] == "twitter"[i];
  }

  lemma TwitterWord(t: string)
    requires |t| == 63 && t[17..18] == " " && t[18..30] == "test.twitter"
    ensures t[22] == '.' && WordStart(t, 23) == 18
  {
    assert forall i :: 18 <= i < 23 ==> t[i] == t[18..30][i - 18];
    assert t[17] == t[17..18][0];
    WordBefore(t, 22, 18);
  }

  lemma LensFollows(t: string)
    requires |t| == 63 && t[31..40] == "test.lens"
    ensures FirstSuffix(t, 36, DotSuffixes) == Some("lens")
  {
    assert forall i :: 36 <= i < 40 ==> t[i] == t[31..40][i - 31];
    FollowedByMatchesEachChar(t, 36, "lens", true);
    FollowedByMatchesEachChar(t, 36, "twitter", true);
    assert forall i :: 0 <= i < 4 ==> t[36 + i] == "lens"[i];
    assert !CharEquals(t[36], "twitter"[0], true);
  }

  lemma LensWord(t: string)
    requires |t| == 63 && t[30..31] == " " && t[31..40] == "test.lens"
    ensures t[35] == '.' && WordStart(t, 36) == 31
  {
    assert forall i :: 31 <= i < 36 ==> t[i] == t[31..40][i - 31];
    assert t[30] == t[30..31][0];
    WordBefore(t, 35, 31);
  }

  lemma SchemeFollows(t: string)
    requires |t| == 63 && t[41..57] == "https://test.com"
    ensures t[41] == 'h' && FollowedBy(t, 42, "ttps://", true)
  {
    assert forall i :: 41 <= i < 57 ==> t[i] == t[41..57][i - 41];
    FollowedByMatchesEachChar(t, 42, "ttps://", true);
    assert forall i :: 0 <= i < 7 ==> t[42 + i] == "ttps://"[i];
  }

  lemma UrlEnds(t: string)
    requires |t| == 63 && t[41..57] == "https://test.com" && t[57..58] == " "
    ensures ScanWhile(t, 49, NonEmpty) == 57
  {
    assert forall i :: 41 <= i < 57 ==> t[i] == t[41..57][i - 41];
    assert t[57] == t[57..58][0];
    ScanWhileUnique(t, 49, NonEmpty, 57);
  }

  lemma LinkStretch(t: string, tokens: seq<TokenCharacterType>)
    requires |t| == 63 && |tokens| == 64 && t[41..57] == "https://test.com" && t[57..58] == " "
    ensures Run(t, false, Machine(DataState, 41, tokens)) == Run(t, false, Machine(DataState, 57, Fill(tokens, Url, 41, 57)))
  {
    SchemeFollows(t);
    UrlEnds(t);
    HttpsUrlRun(t, false, tokens, 41);
  }

  lemma CashTagStretch(t: string, tokens: seq<TokenCharacterType>)
    requires |t| == 63 && |tokens| == 64 && t[58..63] == "$TEST"
    ensures Run(t, false, Machine(DataState, 58, tokens)) == Machine(DataState, 64, Fill(tokens, Cash, 58, 63)[63 := Eof])
  {
    assert forall i :: 58 <= i < 63 ==> t[i] == t[58..63][i - 58];
    CashTagRun(t, false, tokens, 58);
    ScanWhileUnique(t, 59, AsciiAlphanumeric, 63);
    EndOfInputRun(t, false, Fill(tokens, Cash, 58, 63));
  }

  function Blank(): seq<TokenCharacterType>
  {
    seq(64, _ => UnKnown)
  }

  lemma HelloStep(t: string, tokens: seq<TokenCharacterType>)
    requires IsMixedPost(t) && |tokens| == 64
    ensures Run(t, false, Machine(DataState, 0, tokens)) == Run(t, false, Machine(DataState, 6, Fill(tokens, Character, 0, 6)))
  {
    PlainStretch(t, tokens, 0, 6, 0, "Hello ");
  }

  lemma MentionStep(t: string, tokens: seq<TokenCharacterType>)
    requires IsMixedPost(t) && |tokens| == 64
    ensures Run(t, false, Machine(DataState, 6, tokens)) == Run(t, false, Machine(DataState, 11, Fill(tokens, UserName, 6, 11)))
  {
    MentionStretch(t, tokens);
  }

  lemma SpaceStep(t: string, tokens: seq<TokenCharacterType>, p: nat)
    requires IsMixedPost(t) && |tokens| == 64 && p in {11, 17, 30, 40, 57}
    ensures Run(t, false, Machine(DataState, p, tokens)) == Run(t, false, Machine(DataState, p + 1, Fill(tokens, Character, p, p + 1)))
  {
    PlainStretch(t, tokens, p, p + 1, p, " ");
  }

  lemma ChannelStep(t: string, tokens: seq<TokenCharacterType>)
    requires IsMixedPost(t) && |tokens| == 64
    ensures Run(t, false, Machine(DataState, 12, tokens)) == Run(t, false, Machine(DataState, 17, Fill(tokens, Channel, 12, 17)))
  {
    ChannelStretch(t, tokens);
  }

  /** The "test" ahead of a handle's dot is plain text until the dot looks ahead. */
  lemma HandleWordStep(t: string, tokens: seq<TokenCharacterType>, p: nat)
    requires IsMixedPost(t) && |tokens| == 64 && p in {18, 31}
    ensures Run(t, false, Machine(DataState, p, tokens)) == Run(t, false, Machine(DataState, p + 4, Fill(tokens, Character, p, p + 4)))
  {
    if p == 18 {
      PlainStretch(t, tokens, 18, 22, 18, "test.twitter");
    } else {
      PlainStretch(t, tokens, 31, 35, 31, "test.lens");
    }
  }

  lemma TwitterStep(t: string, tokens: seq<TokenCharacterType>)
    requires IsMixedPost(t) && |tokens| == 64
    ensures Run(t, false, Machine(DataState, 22, tokens)) == Run(t, false, Machine(DataState, 30, Fill(tokens, CustomUser, 18, 30)))
  {
    TwitterFollows(t);
    TwitterWord(t);
    SuffixStretch(t, tokens, 22, "twitter", 18);
  }

  lemma LensStep(t: string, tokens: seq<TokenCharacterType>)
    requires IsMixedPost(t) && |tokens| == 64
    ensures Run(t, false, Machine(DataState, 35, tokens)) == Run(t, false, Machine(DataState, 40, Fill(tokens, CustomUser, 31, 40)))
  {
    LensFollows(t);
    LensWord(t);
    SuffixStretch(t, tokens, 35, "lens", 31);
  }

  lemma LinkStep(t: string, tokens: seq<TokenCharacterType>)
    requires IsMixedPost(t) && |tokens| == 64
    ensures Run(t, false, Machine(DataState, 41, tokens)) == Run(t, false, Machine(DataState, 57, Fill(tokens, Url, 41, 57)))
  {
    LinkStretch(t, tokens);
  }

  lemma CashTagStep(t: string, tokens: seq<TokenCharacterType>)
    requires IsMixedPost(t) && |tokens| == 64
    ensures Run(t, false, Machine(DataState, 58, tokens)) == Machine(DataState, 64, Fill(tokens, Cash, 58, 63)[63 := Eof])
  {
    CashTagStretch(t, tokens);
  }

  /** Up to the first handle, through the mention and the channel. */
  lemma MixedFront(t: string)
    requires IsMixedPost(t)
    ensures Run(t, false, Initial(t))
         == Run(t, false, Machine(DataState, 22,
              Fill(Fill(Fill(Fill(Fill(Fill(Blank(), Character, 0, 6), UserName, 6, 11), Character, 11, 12), Channel, 12, 17),
                   Character, 17, 18), Character, 18, 22)))
  {
    var t1 := Fill(Blank(), Character, 0, 6);
    var t2 := Fill(t1, UserName, 6, 11);
    var t3 := Fill(t2, Character, 11, 12);
    var t4 := Fill(t3, Channel, 12, 17);
    var t5 := Fill(t4, Character, 17, 18);
    assert Initial(t) == Machine(DataState, 0, Blank());
    HelloStep(t, Blank());
    MentionStep(t, t1);
    SpaceStep(t, t2, 11);
    ChannelStep(t, t3);
    SpaceStep(t, t4, 17);
    HandleWordStep(t, t5, 18);
  }

  /** From the first handle's dot to the end of input. */
  lemma MixedBack(t: string, tokens: seq<TokenCharacterType>)
    requires IsMixedPost(t) && |tokens| == 64
    ensures Run(t, false, Machine(DataState, 22, tokens))
         == Machine(DataState, 64,
              Fill(Fill(Fill(Fill(Fill(Fill(Fill(Fill(
                tokens, CustomUser, 18, 30), Character, 30, 31), Character, 31, 35), CustomUser, 31, 40),
                Character, 40, 41), Url, 41, 57), Character, 57, 58), Cash, 58, 63)[63 := Eof])
  {
    var t1 := Fill(tokens, CustomUser, 18, 30);
    var t2 := Fill(t1, Character, 30, 31);
    var t3 := Fill(t2, Character, 31, 35);
    var t4 := Fill(t3, CustomUser, 31, 40);
    var t5 := Fill(t4, Character, 40, 41);
    var t6 := Fill(t5, Url, 41, 57);
    var t7 := Fill(t6, Character, 57, 58);
    TwitterStep(t, tokens);
    SpaceStep(t, t1, 30);
    HandleWordStep(t, t2, 31);
    LensStep(t, t3);
    SpaceStep(t, t4, 40);
    LinkStep(t, t5);
    SpaceStep(t, t6, 57);
    CashTagStep(t, t7);
  }

  /** The category the tokenizer gives each slot of a mixed post. */
  function MixedCategory(i: int): TokenCharacterType
  {
    if i < 6 then Character
    else if i < 11 then UserName
    else if i < 12 then Character
    else if i < 17 then Channel
    else if i < 18 then Character
    else if i < 30 then CustomUser
    else if i < 31 then Character
    else if i < 40 then CustomUser
    else if i < 41 then Character
    else if i < 57 then Url
    else if i < 58 then Character
    else if i < 63 then Cash
    else Eof
  }

  function MixedCategories(): seq<TokenCharacterType>
  {
    seq(64, i => MixedCategory(i))
  }

  lemma FrontLabels()
    ensures var r := Fill(Fill(Fill(Fill(Fill(Fill(Blank(), Character, 0, 6), UserName, 6, 11), Character, 11, 12), Channel, 12, 17),
                   Character, 17, 18), Character, 18, 22);
      |r| == 64 && forall i :: 0 <= i < 18 ==> r[i] == MixedCategory(i)
  {
  }

  lemma BackLabels(tokens: seq<TokenCharacterType>)
    requires |tokens| == 64 && forall i :: 0 <= i < 18 ==> tokens[i] == MixedCategory(i)
    ensures Fill(Fill(Fill(Fill(Fill(Fill(Fill(Fill(
                tokens, CustomUser, 18, 30), Character, 30, 31), Character, 31, 35), CustomUser, 31, 40),
                Character, 40, 41), Url, 41, 57), Character, 57, 58), Cash, 58, 63)[63 := Eof]
         == MixedCategories()
  {
  }

  /** The tokenizer labels a mixed post slot by slot as expected. */
  lemma MixedTokens(t: string)
    requires IsMixedPost(t)
    ensures Tokenize(t, false) == MixedCategories()
  {
    var front := Fill(Fill(Fill(Fill(Fill(Fill(Blank(), Character, 0, 6), UserName, 6, 11), Character, 11, 12), Channel, 12, 17),
                   Character, 17, 18), Character, 18, 22);
    MixedFront(t);
    FrontLabels();
    MixedBack(t, front);
    BackLabels(front);
  }

  /** The maximal runs of a mixed post's categories, sentinel included. */
  function MixedSpans(): seq<Span>
  {
    [ Span(Character, 0, 6), Span(UserName, 6, 11), Span(Character, 11, 12), Span(Channel, 12, 17),
      Span(Character, 17, 18), Span(CustomUser, 18, 30), Span(Character, 30, 31), Span(CustomUser, 31, 40),
      Span(Character, 40, 41), Span(Url, 41, 57), Span(Character, 57, 58), Span(Cash, 58, 63), Span(Eof, 63, 64) ]
  }

  /** Non-empty spans that abut, each at the next one's start, are ordered. */
  lemma {:induction false} AbuttingOrdered(spans: seq<Span>, j: nat, k: nat)
    requires forall i :: 0 <= i < |spans| ==> spans[i].start < spans[i].end
    requires forall i :: 0 <= i < |spans| - 1 ==> spans[i].end == spans[i + 1].start
    requires j < k < |spans|
    ensures spans[j].end <= spans[k].start
    decreases k - j
  {
    if j + 1 < k {
      AbuttingOrdered(spans, j + 1, k);
    }
  }

  lemma MixedSpansTile()
    ensures Tiles(MixedSpans(), 64)
  {
    var s := MixedSpans();
    assert forall i :: 0 <= i < |s| ==> s[i].start < s[i].end <= 64;
    assert forall i :: 0 <= i < |s| - 1 ==> s[i].end == s[i + 1].start;
    forall j, k | 0 <= j < k < |s| ensures s[j].end <= s[k].start {
      AbuttingOrdered(s, j, k);
    }
  }

  lemma MixedSpansUniform()
    ensures Uniform(MixedCategories(), MixedSpans())
  {
  }

  lemma MixedSpansMaximal()
    ensures Maximal(MixedSpans())
  {
  }

  lemma MixedSpansDecompose()
    ensures IsRunDecomposition(MixedCategories(), MixedSpans())
  {
    MixedSpansTile();
    MixedSpansUniform();
    MixedSpansMaximal();
  }

  lemma MixedRuns()
    ensures Runs(MixedCategories()) == MixedSpans()
  {
    MixedSpansDecompose();
    RunsUnique(MixedCategories(), MixedSpans());
  }

  /** The nodes the mixed post is expected to parse into. */
  const MixedPostNodes: seq<Node> :=
    [ TextNode("Hello "), UserNode("@test"), TextNode(" "), ChannelNode("/test"), TextNode(" "),
      CustomUserNode("test.twitter"), TextNode(" "), CustomUserNode("test.lens"), TextNode(" "),
      UrlNode("https://test.com"), TextNode(" "), CashNode("$TEST") ]

  lemma MixedNodesOf(t: string)
    requires IsMixedPost(t)
    ensures Buildable(t, MixedSpans())
    ensures NodesOf(t, MixedSpans()) == MixedPostNodes + [EofNode]
  {
  }

  lemma MixedBuild(t: string)
    requires IsMixedPost(t)
    ensures BuildSpec(t, MixedCategories()) == MixedPostNodes
  {
    MixedRuns();
    MixedNodesOf(t);
    RemoveFirstAtEnd(MixedPostNodes, EofNode);
  }

  /** The mixed post, given window by window, parses into the expected nodes. */
  lemma ParsesAsMixedPost(t: string)
    requires IsMixedPost(t)
    ensures Parsed(t) == MixedPostNodes
  {
    MixedTokens(t);
    MixedBuild(t);
  }

  /** The tree builder's mixed-post example, end to end. */
  lemma MixedPostParses()
    ensures Parsed(MixedPost) == MixedPostNodes
  {
    MixedPostWindows();
    ParsesAsMixedPost(MixedPost);
  }
}
