/**
 * Posts that consist of a single entity: a mention, a cashtag, a channel, a
 * link, a headless URL or a custom-user handle. For each shape, the tokenizer
 * labels every character with the entity's category, and the whole parse
 * returns exactly one node carrying the post. The single-entity tests of the
 * library are instances of these lemmas. Two tokenizer tests expect labels
 * the code does not produce; for those inputs the lemmas state what the code
 * as written labels.
 */
module SinglePosts {
  import opened Wrappers
  import opened TokenCharacterTypes
  import opened Nodes
  import opened Readers
  import opened States
  import opened StateProperties
  import opened TreeBuilding
  import opened FarcasterParsing

  /** `n` slots that all carry `k`. */
  function Repeat(k: TokenCharacterType, n: nat): (r: seq<TokenCharacterType>)
    ensures |r| == n && forall i :: 0 <= i < n ==> r[i] == k
  {
    seq(n, _ => k)
  }

  /** Every text slot labelled `k` and the sentinel labelled Eof, whatever the slots held before. */
  lemma FilledWhole(t: string, k: TokenCharacterType, tokens: seq<TokenCharacterType>)
    requires |tokens| == |t| + 1
    ensures Fill(tokens, k, 0, |t|)[|t| := Eof] == Repeat(k, |t|) + [Eof]
  {
    var r := Fill(tokens, k, 0, |t|)[|t| := Eof];
    assert forall i :: 0 <= i < |r| ==> r[i] == (Repeat(k, |t|) + [Eof])[i];
  }

  /** The URL-run scan is unique in the same way as the word scan. */
  lemma UrlRunStartUnique(t: string, pos: nat, s: nat)
    requires s <= pos <= |t| + 1
    requires forall i :: s <= i < pos ==> SymbolIn(UrlChar, SymAt(t, i))
    requires s == 0 || !SymbolIn(UrlChar, SymAt(t, s - 1))
    ensures UrlRunStart(t, pos) == s
  {
    var r := UrlRunStart(t, pos);
    assert !(r < s) && !(s < r);
  }

  /** No custom-user suffix follows a position whose character, ignoring case, starts neither suffix. */
  lemma NoSuffix(t: string, p: nat)
    requires p <= |t| && (p < |t| ==> AsciiLowercase(t[p]) != 't' && AsciiLowercase(t[p]) != 'l')
    ensures FirstSuffix(t, p, DotSuffixes).None?
  {
    assert !FollowedBy(t, p, "twitter", true);
    assert !FollowedBy(t, p, "lens", true);
  }

  // ---------------------------------------------------------------------
  // The tree builder on a single run

  /** One run of `k` and then the sentinel: two maximal runs. */
  lemma SingleRunSpans(n: nat, k: TokenCharacterType)
    requires n > 0 && k != Eof
    ensures Runs(Repeat(k, n) + [Eof]) == [Span(k, 0, n), Span(Eof, n, n + 1)]
  {
    var cats := Repeat(k, n) + [Eof];
    var spans := [Span(k, 0, n), Span(Eof, n, n + 1)];
    assert Tiles(spans, |cats|);
    assert Uniform(cats, spans) by {
      forall j, i | 0 <= j < |spans| && spans[j].start <= i < spans[j].end
        ensures i < |cats| && cats[i] == spans[j].kind
      {
        if j == 1 { assert i == n; }
      }
    }
    RunsUnique(cats, spans);
  }

  /** An array with one run of `k` over the whole text builds a single node. */
  lemma SingleRunBuild(text: string, k: TokenCharacterType)
    requires |text| > 0 && k != Eof
    ensures BuildSpec(text, Repeat(k, |text|) + [Eof]) == [BuildNode(k, text, 0, |text|)]
  {
    var spans := [Span(k, 0, |text|), Span(Eof, |text|, |text| + 1)];
    SingleRunSpans(|text|, k);
    var node := BuildNode(k, text, 0, |text|);
    assert node != EofNode by {
      assert k in NodeCategories(node);
    }
    assert NodesOf(text, spans) == [node] + [EofNode];
    RemoveFirstAtEnd([node], EofNode);
  }

  // ---------------------------------------------------------------------
  // Mentions, cashtags and channels

  /** `@` followed by one or more of [A-Za-z0-9_]. */
  predicate IsMention(t: string)
  {
    |t| >= 2 && t[0] == '@' && forall i :: 1 <= i < |t| ==> InClass(AsciiAlphanumericUnderscore, t[i])
  }

  lemma MentionLabels(t: string)
    requires IsMention(t)
    ensures Tokenize(t, false) == Repeat(UserName, |t|) + [Eof]
  {
    var tokens := Initial(t).tokens;
    assert InClass(AsciiAlphanumericUnderscoreDash, t[1]);
    UserNameRun(t, false, tokens, 0);
    ScanWhileUnique(t, 1, UserNameTokens(false), |t|);
    EndOfInputRun(t, false, Fill(tokens, UserName, 0, |t|));
    FilledWhole(t, UserName, tokens);
  }

  lemma MentionParses(t: string)
    requires IsMention(t)
    ensures Parsed(t) == [UserNode(t)]
  {
    MentionLabels(t);
    SingleRunBuild(t, UserName);
    assert t[0..|t|] == t;
  }

  /** `$` followed by one or more ASCII alphanumerics. */
  predicate IsCashTag(t: string)
  {
    |t| >= 2 && t[0] == '$' && forall i :: 1 <= i < |t| ==> IsAsciiAlphanumeric(t[i])
  }

  lemma CashTagLabels(t: string)
    requires IsCashTag(t)
    ensures Tokenize(t, false) == Repeat(Cash, |t|) + [Eof]
  {
    var tokens := Initial(t).tokens;
    CashTagRun(t, false, tokens, 0);
    ScanWhileUnique(t, 1, AsciiAlphanumeric, |t|);
    EndOfInputRun(t, false, Fill(tokens, Cash, 0, |t|));
    FilledWhole(t, Cash, tokens);
  }

  lemma CashTagParses(t: string)
    requires IsCashTag(t)
    ensures Parsed(t) == [CashNode(t)]
  {
    CashTagLabels(t);
    SingleRunBuild(t, Cash);
    assert t[0..|t|] == t;
  }

  /** `/` at the start of the post followed by one or more of [A-Za-z0-9_-]. */
  predicate IsChannel(t: string)
  {
    |t| >= 2 && t[0] == '/' && forall i :: 1 <= i < |t| ==> InClass(AsciiAlphanumericUnderscoreDash, t[i])
  }

  lemma ChannelLabels(t: string)
    requires IsChannel(t)
    ensures Tokenize(t, false) == Repeat(Channel, |t|) + [Eof]
  {
    var tokens := Initial(t).tokens;
    ChannelRun(t, false, tokens, 0);
    ScanWhileUnique(t, 1, AsciiAlphanumericUnderscoreDash, |t|);
    EndOfInputRun(t, false, Fill(tokens, Channel, 0, |t|));
    FilledWhole(t, Channel, tokens);
  }

  lemma ChannelParses(t: string)
    requires IsChannel(t)
    ensures Parsed(t) == [ChannelNode(t)]
  {
    ChannelLabels(t);
    SingleRunBuild(t, Channel);
    assert t[0..|t|] == t;
  }

  // ---------------------------------------------------------------------
  // Links and headless URLs

  /**
   * A lowercase `h`, the rest of `https://` or `http://` in any case, then
   * characters that are not empty characters.
   */
  predicate IsLink(t: string)
  {
    && |t| >= 7 && t[0] == 'h'
    && (FollowedBy(t, 1, "ttps://", true) || FollowedBy(t, 1, "ttp://", true))
    && forall i :: 7 <= i < |t| ==> !IsEmptyChar(t[i])
  }

  /** The non-empty characters after the scheme run to the end of the post. */
  lemma LinkBodyToEnd(t: string, i: nat)
    requires IsLink(t) && 7 <= i <= |t|
    ensures ScanWhile(t, i, NonEmpty) == |t|
  {
    ScanWhileUnique(t, i, NonEmpty, |t|);
  }

  lemma SecureLinkRun(t: string, tokens: seq<TokenCharacterType>)
    requires |tokens| == |t| + 1 && 0 < |t| && t[0] == 'h' && FollowedBy(t, 1, "ttps://", true)
    requires ScanWhile(t, 8, NonEmpty) == |t|
    ensures Run(t, false, Machine(DataState, 0, tokens)) == Run(t, false, Machine(DataState, |t|, Fill(tokens, Url, 0, |t|)))
  {
    HttpsUrlRun(t, false, tokens, 0);
  }

  lemma PlainLinkRun(t: string, tokens: seq<TokenCharacterType>)
    requires |tokens| == |t| + 1 && 0 < |t| && t[0] == 'h'
    requires !FollowedBy(t, 1, "ttps://", true) && FollowedBy(t, 1, "ttp://", true)
    requires ScanWhile(t, 7, NonEmpty) == |t|
    ensures Run(t, false, Machine(DataState, 0, tokens)) == Run(t, false, Machine(DataState, |t|, Fill(tokens, Url, 0, |t|)))
  {
    HttpUrlRun(t, false, tokens, 0);
  }

  lemma LinkLabels(t: string)
    requires IsLink(t)
    ensures Tokenize(t, false) == Repeat(Url, |t|) + [Eof]
  {
    var tokens := Initial(t).tokens;
    if FollowedBy(t, 1, "ttps://", true) {
      assert |t| >= 8;
      LinkBodyToEnd(t, 8);
      SecureLinkRun(t, tokens);
    } else {
      LinkBodyToEnd(t, 7);
      PlainLinkRun(t, tokens);
    }
    EndOfInputRun(t, false, Fill(tokens, Url, 0, |t|));
    FilledWhole(t, Url, tokens);
  }

  lemma LinkParses(t: string)
    requires IsLink(t)
    ensures Parsed(t) == [UrlNode(t)]
  {
    LinkLabels(t);
    SingleRunBuild(t, Url);
    assert t[0..|t|] == t;
  }

  /** A character that DataState labels Character right away. */
  predicate IsPlain(c: char)
  {
    c !in {'h', '$', '@', '/', '.'}
  }

  /**
   * A word of plain URL characters, a dot at `d` that no custom-user suffix
   * follows, then URL characters ([A-Za-z0-9.-]) to the end.
   */
  predicate IsHeadlessUrl(t: string, d: nat)
  {
    && d < |t| && t[d] == '.'
    && (forall i :: 0 <= i < d ==> IsPlain(t[i]) && InClass(UrlChar, t[i]))
    && (forall i :: d < i < |t| ==> InClass(UrlChar, t[i]))
    && FirstSuffix(t, d + 1, DotSuffixes).None?
  }

  lemma HeadlessUrlLabels(t: string, d: nat)
    requires IsHeadlessUrl(t, d)
    ensures Tokenize(t, false) == Repeat(Url, |t|) + [Eof]
  {
    var tokens := Initial(t).tokens;
    PlainRun(t, false, tokens, 0, d);
    var front := Fill(tokens, Character, 0, d);
    HeadlessUrlRun(t, false, front, d);
    ScanWhileUnique(t, d + 1, UrlChar, |t|);
    UrlRunStartUnique(t, d + 1, 0);
    EndOfInputRun(t, false, Fill(front, Url, 0, |t|));
    FilledWhole(t, Url, front);
  }

  lemma HeadlessUrlParses(t: string, d: nat)
    requires IsHeadlessUrl(t, d)
    ensures Parsed(t) == [UrlNode(t)]
  {
    HeadlessUrlLabels(t, d);
    SingleRunBuild(t, Url);
    assert t[0..|t|] == t;
  }

  // ---------------------------------------------------------------------
  // Custom-user handles

  /** A word of plain non-empty characters, a dot at `d`, then exactly one of the suffixes. */
  predicate IsHandle(t: string, d: nat, suffix: string)
  {
    && d < |t| && t[d] == '.' && t[d + 1..] == suffix && suffix in DotSuffixes
    && forall i :: 0 <= i < d ==> IsPlain(t[i]) && !IsEmptyChar(t[i])
  }

  /** The suffix that ends a handle is the one DotState finds. */
  lemma HandleSuffix(t: string, d: nat, suffix: string)
    requires IsHandle(t, d, suffix)
    ensures FirstSuffix(t, d + 1, DotSuffixes) == Some(suffix)
  {
    FollowedByMatchesEachChar(t, d + 1, suffix, true);
    assert forall i :: 0 <= i < |suffix| ==> t[d + 1 + i] == suffix[i];
    if suffix != "twitter" {
      assert suffix == "lens";
      assert !FollowedBy(t, d + 1, "twitter", true);
      assert DotSuffixes[1..] == ["lens"];
    }
  }

  /** The handle's word starts at the beginning of the post and its suffix ends the post. */
  lemma HandleBounds(t: string, d: nat, suffix: string)
    requires IsHandle(t, d, suffix)
    ensures WordStart(t, d + 1) == 0 && d + 1 + |suffix| == |t|
  {
    WordStartUnique(t, d + 1, 0);
  }

  /** From the `.` on, the whole post becomes one custom-user run. */
  lemma HandleTail(t: string, d: nat, suffix: string, front: seq<TokenCharacterType>)
    requires |front| == |t| + 1 && d < |t| && t[d] == '.'
    requires FirstSuffix(t, d + 1, DotSuffixes) == Some(suffix)
    requires WordStart(t, d + 1) == 0 && d + 1 + |suffix| == |t|
    ensures Run(t, false, Machine(DataState, d, front)) == Machine(DataState, |t| + 1, Fill(front, CustomUser, 0, |t|)[|t| := Eof])
  {
    SuffixRun(t, false, front, d, suffix);
    EndOfInputRun(t, false, Fill(front, CustomUser, 0, |t|));
  }

  lemma HandleLabels(t: string, d: nat, suffix: string)
    requires IsHandle(t, d, suffix)
    ensures Tokenize(t, false) == Repeat(CustomUser, |t|) + [Eof]
  {
    var tokens := Initial(t).tokens;
    PlainRun(t, false, tokens, 0, d);
    var front := Fill(tokens, Character, 0, d);
    HandleSuffix(t, d, suffix);
    HandleBounds(t, d, suffix);
    HandleTail(t, d, suffix, front);
    FilledWhole(t, CustomUser, front);
  }

  lemma HandleParses(t: string, d: nat, suffix: string)
    requires IsHandle(t, d, suffix)
    ensures Parsed(t) == [CustomUserNode(t)]
  {
    HandleLabels(t, d, suffix);
    SingleRunBuild(t, CustomUser);
    assert t[0..|t|] == t;
  }

  // ---------------------------------------------------------------------
  // The library's single-entity tests

  lemma AtUserNameTokens()
    ensures Tokenize("@test", false) == Repeat(UserName, 5) + [Eof]
  {
    MentionLabels("@test");
  }

  lemma CashTokens()
    ensures Tokenize("$test", false) == Repeat(Cash, 5) + [Eof]
  {
    CashTagLabels("$test");
  }

  lemma ChannelTokens()
    ensures Tokenize("/test", false) == Repeat(Channel, 5) + [Eof]
  {
    ChannelLabels("/test");
  }

  lemma DashedChannelTokens()
    ensures Tokenize("/test-test", false) == Repeat(Channel, 10) + [Eof]
  {
    ChannelLabels("/test-test");
  }

  lemma TwitterUserTokens()
    ensures Tokenize("test.twitter", false) == Repeat(CustomUser, 12) + [Eof]
  {
    HandleLabels("test.twitter", 4, "twitter");
  }

  lemma LensterUserTokens()
    ensures Tokenize("test.lens", false) == Repeat(CustomUser, 9) + [Eof]
  {
    HandleLabels("test.lens", 4, "lens");
  }

  lemma UrlTokens()
    ensures Tokenize("https://test.com", false) == Repeat(Url, 16) + [Eof]
  {
    FollowedByMatchesEachChar("https://test.com", 1, "ttps://", true);
    LinkLabels("https://test.com");
  }

  lemma HeadlessUrlTokens()
    ensures Tokenize("test.com", false) == Repeat(Url, 8) + [Eof]
  {
    NoSuffix("test.com", 5);
    HeadlessUrlLabels("test.com", 4);
  }

  lemma HostUrlTokens()
    ensures Tokenize("test.host.com", false) == Repeat(Url, 13) + [Eof]
  {
    NoSuffix("test.host.com", 5);
    HeadlessUrlLabels("test.host.com", 4);
  }

  // The tree-builder tests: each post becomes one node holding the whole post.

  lemma UserNameNodes()
    ensures Parsed("@test") == [UserNode("@test")]
  {
    MentionParses("@test");
  }

  lemma ChannelNodes()
    ensures Parsed("/test") == [ChannelNode("/test")]
  {
    ChannelParses("/test");
  }

  lemma TwitterUserNodes()
    ensures Parsed("test.twitter") == [CustomUserNode("test.twitter")]
  {
    HandleParses("test.twitter", 4, "twitter");
  }

  lemma LensterUserNodes()
    ensures Parsed("test.lens") == [CustomUserNode("test.lens")]
  {
    HandleParses("test.lens", 4, "lens");
  }

  lemma UrlNodes()
    ensures Parsed("https://test.com") == [UrlNode("https://test.com")]
  {
    FollowedByMatchesEachChar("https://test.com", 1, "ttps://", true);
    LinkParses("https://test.com");
  }

  lemma CashNodes()
    ensures Parsed("$TEST") == [CashNode("$TEST")]
  {
    CashTagParses("$TEST");
  }

  // ---------------------------------------------------------------------
  // Two tokenizer tests whose expectations the code does not meet

  /** A `/` right after a character that is not empty opens no channel. */
  lemma SlashInsideWord(t: string, tokens: seq<TokenCharacterType>, p: nat)
    requires |tokens| == |t| + 1 && 0 < p < |t| && t[p] == '/' && !IsEmptyChar(t[p - 1])
    ensures Run(t, false, Machine(DataState, p, tokens)) == Run(t, false, Machine(DataState, p + 1, tokens[p := Character]))
  {
    ChannelRun(t, false, tokens, p);
  }

  /** The characters of `/test/test`, one by one. */
  predicate IsNotChannelPost(t: string)
  {
    && |t| == 10
    && t[0] == '/' && t[1] == 't' && t[2] == 'e' && t[3] == 's' && t[4] == 't'
    && t[5] == '/' && t[6] == 't' && t[7] == 'e' && t[8] == 's' && t[9] == 't'
  }

  lemma NotChannelName(t: string)
    requires IsNotChannelPost(t)
    ensures ScanWhile(t, 1, AsciiAlphanumericUnderscoreDash) == 5
  {
    ScanWhileUnique(t, 1, AsciiAlphanumericUnderscoreDash, 5);
  }

  lemma NotChannelHead(t: string, tokens: seq<TokenCharacterType>)
    requires IsNotChannelPost(t) && |tokens| == 11
    ensures Run(t, false, Machine(DataState, 0, tokens)) == Run(t, false, Machine(DataState, 5, Fill(tokens, Channel, 0, 5)))
  {
    NotChannelName(t);
    ChannelRun(t, false, tokens, 0);
  }

  lemma NotChannelTail(t: string, tokens: seq<TokenCharacterType>)
    requires IsNotChannelPost(t) && |tokens| == 11
    ensures Run(t, false, Machine(DataState, 6, tokens)) == Machine(DataState, 11, Fill(tokens, Character, 6, 10)[10 := Eof])
  {
    PlainRun(t, false, tokens, 6, 10);
    EndOfInputRun(t, false, Fill(tokens, Character, 6, 10));
  }

  lemma NotChannelLabels(t: string)
    requires IsNotChannelPost(t)
    ensures Tokenize(t, false) == Repeat(Channel, 5) + Repeat(Character, 5) + [Eof]
  {
    var a := Fill(Initial(t).tokens, Channel, 0, 5);
    NotChannelHead(t, Initial(t).tokens);
    SlashInsideWord(t, a, 5);
    NotChannelTail(t, a[5 := Character]);
    var r := Fill(a[5 := Character], Character, 6, 10)[10 := Eof];
    assert forall i :: 0 <= i < 11 ==> r[i] == (Repeat(Channel, 5) + Repeat(Character, 5) + [Eof])[i];
  }

  /**
   * `/test/test`: the first `/` opens a channel and the second, which follows
   * a letter, is Character with all that follows it.
   */
  lemma NotChannelAsWritten()
    ensures Tokenize("/test/test", false) == Repeat(Channel, 5) + Repeat(Character, 5) + [Eof]
  {
    NotChannelLabels("/test/test");
  }

  /** The characters of `vision.io/0x/dos`, one by one. */
  predicate IsVisionPost(t: string)
  {
    && |t| == 16
    && t[0] == 'v' && t[1] == 'i' && t[2] == 's' && t[3] == 'i' && t[4] == 'o' && t[5] == 'n' && t[6] == '.'
    && t[7] == 'i' && t[8] == 'o' && t[9] == '/' && t[10] == '0' && t[11] == 'x' && t[12] == '/'
    && t[13] == 'd' && t[14] == 'o' && t[15] == 's'
  }

  lemma VisionWord(t: string, tokens: seq<TokenCharacterType>)
    requires IsVisionPost(t) && |tokens| == 17
    ensures Run(t, false, Machine(DataState, 0, tokens)) == Run(t, false, Machine(DataState, 6, Fill(tokens, Character, 0, 6)))
  {
    PlainRun(t, false, tokens, 0, 6);
  }

  /** `vision.io` is a headless URL that ends at the first `/`. */
  lemma VisionDomain(t: string, tokens: seq<TokenCharacterType>)
    requires IsVisionPost(t) && |tokens| == 17
    ensures Run(t, false, Machine(DataState, 6, tokens)) == Run(t, false, Machine(DataState, 9, Fill(tokens, Url, 0, 9)))
  {
    UrlRunStartUnique(t, 7, 0);
    NoSuffix(t, 7);
    ScanWhileUnique(t, 7, UrlChar, 9);
    HeadlessUrlRun(t, false, tokens, 6);
  }

  lemma VisionPath(t: string, tokens: seq<TokenCharacterType>)
    requires IsVisionPost(t) && |tokens| == 17
    ensures Run(t, false, Machine(DataState, 10, tokens)) == Run(t, false, Machine(DataState, 12, Fill(tokens, Character, 10, 12)))
  {
    PlainRun(t, false, tokens, 10, 12);
  }

  lemma VisionEnd(t: string, tokens: seq<TokenCharacterType>)
    requires IsVisionPost(t) && |tokens| == 17
    ensures Run(t, false, Machine(DataState, 13, tokens)) == Machine(DataState, 17, Fill(tokens, Character, 13, 16)[16 := Eof])
  {
    PlainRun(t, false, tokens, 13, 16);
    EndOfInputRun(t, false, Fill(tokens, Character, 13, 16));
  }

  lemma VisionFront(t: string)
    requires IsVisionPost(t)
    ensures Run(t, false, Initial(t)) == Run(t, false, Machine(DataState, 9, Fill(Fill(Initial(t).tokens, Character, 0, 6), Url, 0, 9)))
  {
    VisionWord(t, Initial(t).tokens);
    VisionDomain(t, Fill(Initial(t).tokens, Character, 0, 6));
  }

  lemma VisionMiddle(t: string, b: seq<TokenCharacterType>)
    requires IsVisionPost(t) && |b| == 17
    ensures Run(t, false, Machine(DataState, 9, b)) == Run(t, false, Machine(DataState, 12, Fill(b[9 := Character], Character, 10, 12)))
  {
    SlashInsideWord(t, b, 9);
    VisionPath(t, b[9 := Character]);
  }

  lemma VisionBack(t: string, e: seq<TokenCharacterType>)
    requires IsVisionPost(t) && |e| == 17
    ensures Run(t, false, Machine(DataState, 12, e)) == Machine(DataState, 17, Fill(e[12 := Character], Character, 13, 16)[16 := Eof])
  {
    SlashInsideWord(t, e, 12);
    VisionEnd(t, e[12 := Character]);
  }

  lemma VisionLabels(t: string)
    requires IsVisionPost(t)
    ensures Tokenize(t, false) == Repeat(Url, 9) + Repeat(Character, 7) + [Eof]
  {
    var b := Fill(Fill(Initial(t).tokens, Character, 0, 6), Url, 0, 9);
    VisionFront(t);
    VisionMiddle(t, b);
    VisionBack(t, Fill(b[9 := Character], Character, 10, 12));
    var r := Fill(Fill(b[9 := Character], Character, 10, 12)[12 := Character], Character, 13, 16)[16 := Eof];
    assert forall i :: 0 <= i < 17 ==> r[i] == (Repeat(Url, 9) + Repeat(Character, 7) + [Eof])[i];
  }

  /**
   * `vision.io/0x/dos`: the headless URL ends at the first `/`, which follows
   * a letter and so is Character, like everything after it.
   */
  lemma VisionUrlAsWritten()
    ensures Tokenize("vision.io/0x/dos", false) == Repeat(Url, 9) + Repeat(Character, 7) + [Eof]
  {
    VisionLabels("vision.io/0x/dos");
  }
}
