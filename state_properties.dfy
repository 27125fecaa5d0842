/**
 * What a whole parse does, proved from the single steps in module States:
 * every slot gets exactly one label, and each kind of token is labelled as a
 * unit ("big steps" from DataState back to DataState).
 */
module StateProperties {
  import opened Wrappers
  import opened Readers
  import opened TokenCharacterTypes
  import opened States

  // ---------------------------------------------------------------------
  // Every slot is labelled

  /** How many leading slots are final: a marker's own character is still pending. */
  function LabelledPrefix(m: Machine): nat
    requires IsMarkerState(m.state) ==> 1 <= m.pos
  {
    if IsMarkerState(m.state) then m.pos - 1 else m.pos
  }

  /**
   * The labelling invariant of a parse, for a prefix of `prefix` slots: those
   * slots carry a label, no text slot is Eof, nothing is HashTag, and the
   * sentinel slot is UnKnown until DataState labels it Eof.
   */
  predicate Labelled(t: string, tokens: seq<TokenCharacterType>, prefix: nat)
    requires |tokens| == |t| + 1
  {
    && (forall i :: 0 <= i < prefix && i < |tokens| ==> tokens[i] != UnKnown)
    && (forall i :: 0 <= i < |t| ==> tokens[i] != Eof)
    && (forall i :: 0 <= i < |tokens| ==> tokens[i] != HashTag)
    && (tokens[|t|] == UnKnown || tokens[|t|] == Eof)
  }

  predicate WellLabelled(t: string, m: Machine)
    requires WellFormed(t, m)
  {
    Labelled(t, m.tokens, LabelledPrefix(m))
  }

  /** A label a step may write into a text slot. */
  predicate IsTextLabel(c: TokenCharacterType)
  {
    c != UnKnown && c != Eof && c != HashTag
  }

  lemma FillKeepsLabels(t: string, tokens: seq<TokenCharacterType>, c: TokenCharacterType, a: nat, b: nat, prefix: nat, prefix': nat)
    requires |tokens| == |t| + 1 && Labelled(t, tokens, prefix)
    requires IsTextLabel(c) && a <= prefix && b <= |t| && prefix' <= if b < prefix then prefix else b
    ensures Labelled(t, Fill(tokens, c, a, b), prefix')
  {
  }

  lemma UpdateKeepsLabels(t: string, tokens: seq<TokenCharacterType>, c: TokenCharacterType, i: nat, prefix: nat, prefix': nat)
    requires |tokens| == |t| + 1 && Labelled(t, tokens, prefix)
    requires IsTextLabel(c) && i <= prefix && i < |t| && prefix' <= if i + 1 < prefix then prefix else i + 1
    ensures Labelled(t, tokens[i := c], prefix')
  {
  }

  lemma StepKeepsLabels(t: string, enableDotInUserName: bool, m: Machine)
    requires WellFormed(t, m) && m.pos < |t| + 1 && WellLabelled(t, m)
    ensures WellLabelled(t, Step(t, enableDotInUserName, m))
  {
    match m.state
    case DataState => DataStepKeepsLabels(t, m);
    case HState => HStepKeepsLabels(t, m);
    case DollarState => DollarStepKeepsLabels(t, m);
    case AtState => AtStepKeepsLabels(t, m);
    case SlashState => SlashStepKeepsLabels(t, m);
    case DotState => DotStepKeepsLabels(t, m);
    case UrlState => BodyStepKeepsLabels(t, enableDotInUserName, m);
    case CashTagState => BodyStepKeepsLabels(t, enableDotInUserName, m);
    case UserNameState => BodyStepKeepsLabels(t, enableDotInUserName, m);
    case ChannelNameState => BodyStepKeepsLabels(t, enableDotInUserName, m);
    case HeadlessUrlState => BodyStepKeepsLabels(t, enableDotInUserName, m);
  }

  lemma DataStepKeepsLabels(t: string, m: Machine)
    requires WellFormed(t, m) && m.state == DataState && m.pos < |t| + 1 && WellLabelled(t, m)
    ensures WellLabelled(t, DataStep(t, m))
  {
    var r := DataStep(t, m);
    if m.pos < |t| && r.state == DataState {
      UpdateKeepsLabels(t, m.tokens, Character, m.pos, m.pos, m.pos + 1);
    }
  }

  lemma HStepKeepsLabels(t: string, m: Machine)
    requires WellFormed(t, m) && m.state == HState && WellLabelled(t, m)
    ensures WellLabelled(t, HStep(t, m))
  {
    var r := HStep(t, m);
    if r.state == UrlState {
      FillKeepsLabels(t, m.tokens, Url, m.pos - 1, r.pos, m.pos - 1, r.pos);
    } else {
      UpdateKeepsLabels(t, m.tokens, Character, m.pos - 1, m.pos - 1, m.pos);
    }
  }

  lemma DollarStepKeepsLabels(t: string, m: Machine)
    requires WellFormed(t, m) && m.state == DollarState && WellLabelled(t, m)
    ensures WellLabelled(t, DollarStep(t, m))
  {
    var r := DollarStep(t, m);
    UpdateKeepsLabels(t, m.tokens, if r.state == DataState then Character else Cash, m.pos - 1, m.pos - 1, m.pos);
  }

  lemma AtStepKeepsLabels(t: string, m: Machine)
    requires WellFormed(t, m) && m.state == AtState && WellLabelled(t, m)
    ensures WellLabelled(t, AtStep(t, m))
  {
    var r := AtStep(t, m);
    UpdateKeepsLabels(t, m.tokens, if r.state == DataState then Character else UserName, m.pos - 1, m.pos - 1, m.pos);
  }

  lemma SlashStepKeepsLabels(t: string, m: Machine)
    requires WellFormed(t, m) && m.state == SlashState && WellLabelled(t, m)
    ensures WellLabelled(t, SlashStep(t, m))
  {
    var r := SlashStep(t, m);
    UpdateKeepsLabels(t, m.tokens, if r.state == DataState then Character else Channel, m.pos - 1, m.pos - 1, m.pos);
  }

  lemma BodyStepKeepsLabels(t: string, enableDotInUserName: bool, m: Machine)
    requires WellFormed(t, m) && IsBodyState(m.state) && WellLabelled(t, m)
    ensures WellLabelled(t, BodyStep(t, enableDotInUserName, m))
  {
    if SymbolIn(BodyClass(m.state, enableDotInUserName), SymAt(t, m.pos)) {
      UpdateKeepsLabels(t, m.tokens, BodyKind(m.state), m.pos, m.pos, m.pos + 1);
    }
  }

  lemma DotStepKeepsLabels(t: string, m: Machine)
    requires WellFormed(t, m) && m.state == DotState && WellLabelled(t, m)
    ensures WellLabelled(t, DotStep(t, m))
  {
    match FirstSuffix(t, m.pos, DotSuffixes)
    case Some(suffix) => SuffixKeepsLabels(t, m, suffix);
    case None => HeadlessKeepsLabels(t, m);
  }

  lemma SuffixKeepsLabels(t: string, m: Machine, suffix: string)
    requires WellFormed(t, m) && m.state == DotState && WellLabelled(t, m)
    requires m.pos + |suffix| <= |t|
    ensures Labelled(t, Fill(m.tokens, CustomUser, WordStart(t, m.pos), m.pos + |suffix|), m.pos + |suffix|)
  {
    // the dot itself belongs to the word
    assert !IsEmptySymbol(SymAt(t, m.pos - 1));
    assert WordStart(t, m.pos) <= m.pos - 1;
    FillKeepsLabels(t, m.tokens, CustomUser, WordStart(t, m.pos), m.pos + |suffix|, m.pos - 1, m.pos + |suffix|);
  }

  lemma HeadlessKeepsLabels(t: string, m: Machine)
    requires WellFormed(t, m) && m.state == DotState && WellLabelled(t, m)
    ensures Labelled(t, Fill(m.tokens, Url, UrlRunStart(t, m.pos), m.pos), m.pos)
  {
    // the dot itself belongs to the URL run
    assert SymbolIn(UrlChar, SymAt(t, m.pos - 1));
    assert UrlRunStart(t, m.pos) <= m.pos - 1;
    FillKeepsLabels(t, m.tokens, Url, UrlRunStart(t, m.pos), m.pos, m.pos - 1, m.pos);
  }

  lemma {:induction false} RunKeepsLabels(t: string, enableDotInUserName: bool, m: Machine)
    requires WellFormed(t, m) && WellLabelled(t, m)
    ensures WellLabelled(t, Run(t, enableDotInUserName, m))
    decreases Measure(t, m)
  {
    if m.pos < |t| + 1 {
      StepKeepsLabels(t, enableDotInUserName, m);
      RunKeepsLabels(t, enableDotInUserName, Step(t, enableDotInUserName, m));
    }
  }

  /**
   * The returned array has one slot per character plus the sentinel slot;
   * every character slot holds a real label (not UnKnown, not Eof, never
   * HashTag) and the sentinel slot holds Eof.
   */
  lemma TokenizeLabelsEverySlot(t: string, enableDotInUserName: bool)
    ensures var r := Tokenize(t, enableDotInUserName);
      && |r| == |t| + 1
      && r[|t|] == Eof
      && forall i :: 0 <= i < |t| ==> r[i] != UnKnown && r[i] != Eof && r[i] != HashTag
  {
    RunKeepsLabels(t, enableDotInUserName, Initial(t));
  }

  // ---------------------------------------------------------------------
  // Big steps: each lemma starts DataState at position `p` on one kind of
  // token and names the DataState machine the parse reaches after it.

  /** The end of the maximal run of `k` characters starting at `i`. */
  function ScanWhile(t: string, i: nat, k: CharClass): (q: nat)
    requires i <= |t|
    ensures i <= q <= |t|
    ensures forall j :: i <= j < q ==> InClass(k, t[j])
    ensures q == |t| || !InClass(k, t[q])
    decreases |t| - i
  {
    if i < |t| && InClass(k, t[i]) then ScanWhile(t, i + 1, k) else i
  }

  /** The maximal run is unique: any end with those two properties is `ScanWhile`'s. */
  lemma ScanWhileUnique(t: string, i: nat, k: CharClass, q: nat)
    requires i <= q <= |t|
    requires forall j :: i <= j < q ==> InClass(k, t[j])
    requires q == |t| || !InClass(k, t[q])
    ensures ScanWhile(t, i, k) == q
  {
    var r := ScanWhile(t, i, k);
    assert !(r < q) && !(q < r);
  }

  /** The backward word scan is unique in the same way. */
  lemma WordStartUnique(t: string, pos: nat, s: nat)
    requires s <= pos <= |t| + 1
    requires forall i :: s <= i < pos ==> !IsEmptySymbol(SymAt(t, i))
    requires s == 0 || IsEmptySymbol(SymAt(t, s - 1))
    ensures WordStart(t, pos) == s
  {
    var r := WordStart(t, pos);
    assert !(r < s) && !(s < r);
  }

  lemma FillThenFill(tokens: seq<TokenCharacterType>, c: TokenCharacterType, a: int, b: int, d: int)
    requires a <= b <= d
    ensures Fill(Fill(tokens, c, a, b), c, b, d) == Fill(tokens, c, a, d)
  {
  }

  lemma FillAfterUpdate(tokens: seq<TokenCharacterType>, c: TokenCharacterType, p: nat, q: int)
    requires p < |tokens| && p < q
    ensures Fill(tokens[p := c], c, p + 1, q) == Fill(tokens, c, p, q)
  {
  }

  /** One turn of the parse loop. */
  lemma RunStep(t: string, enableDotInUserName: bool, m: Machine, next: Machine)
    requires WellFormed(t, m) && m.pos < |t| + 1 && Step(t, enableDotInUserName, m) == next
    ensures Run(t, enableDotInUserName, m) == Run(t, enableDotInUserName, next)
  {
  }

  /**
   * A body state labels the maximal run of its set from the cursor with its
   * category and hands the first other symbol back to DataState.
   */
  lemma {:induction false} BodyRun(t: string, enableDotInUserName: bool, state: State, tokens: seq<TokenCharacterType>, p: nat)
    requires IsBodyState(state) && |tokens| == |t| + 1 && p <= |t|
    ensures var q := ScanWhile(t, p, BodyClass(state, enableDotInUserName));
      Run(t, enableDotInUserName, Machine(state, p, tokens))
      == Run(t, enableDotInUserName, Machine(DataState, q, Fill(tokens, BodyKind(state), p, q)))
    decreases |t| - p
  {
    var k, kind := BodyClass(state, enableDotInUserName), BodyKind(state);
    var q := ScanWhile(t, p, k);
    if p < |t| && InClass(k, t[p]) {
      BodyAdvances(t, enableDotInUserName, state, tokens, p);
      BodyRun(t, enableDotInUserName, state, tokens[p := kind], p + 1);
      FillAfterUpdate(tokens, kind, p, q);
    } else {
      BodyLeaves(t, enableDotInUserName, state, tokens, p);
      assert Fill(tokens, kind, p, p) == tokens;
    }
  }

  /** A symbol of the body's set is labelled and consumed. */
  lemma BodyAdvances(t: string, enableDotInUserName: bool, state: State, tokens: seq<TokenCharacterType>, p: nat)
    requires IsBodyState(state) && |tokens| == |t| + 1 && p < |t| && InClass(BodyClass(state, enableDotInUserName), t[p])
    ensures Run(t, enableDotInUserName, Machine(state, p, tokens))
         == Run(t, enableDotInUserName, Machine(state, p + 1, tokens[p := BodyKind(state)]))
  {
    RunStep(t, enableDotInUserName, Machine(state, p, tokens), Machine(state, p + 1, tokens[p := BodyKind(state)]));
  }

  /** Any other symbol, or the end of input, hands control back to DataState without consuming. */
  lemma BodyLeaves(t: string, enableDotInUserName: bool, state: State, tokens: seq<TokenCharacterType>, p: nat)
    requires IsBodyState(state) && |tokens| == |t| + 1 && p <= |t|
    requires !(p < |t| && InClass(BodyClass(state, enableDotInUserName), t[p]))
    ensures Run(t, enableDotInUserName, Machine(state, p, tokens)) == Run(t, enableDotInUserName, Machine(DataState, p, tokens))
  {
    RunStep(t, enableDotInUserName, Machine(state, p, tokens), Machine(DataState, p, tokens));
  }

  /** A body state entered with `[s, p)` already labelled extends that label over its run. */
  lemma LabelledBodyRun(t: string, enableDotInUserName: bool, state: State, tokens: seq<TokenCharacterType>, s: int, p: nat)
    requires IsBodyState(state) && |tokens| == |t| + 1 && s <= p <= |t|
    ensures var q := ScanWhile(t, p, BodyClass(state, enableDotInUserName));
      Run(t, enableDotInUserName, Machine(state, p, Fill(tokens, BodyKind(state), s, p)))
      == Run(t, enableDotInUserName, Machine(DataState, q, Fill(tokens, BodyKind(state), s, q)))
  {
    BodyRun(t, enableDotInUserName, state, Fill(tokens, BodyKind(state), s, p), p);
    FillThenFill(tokens, BodyKind(state), s, p, ScanWhile(t, p, BodyClass(state, enableDotInUserName)));
  }

  /** Any character DataState does not dispatch on is labelled Character by itself. */
  lemma PlainCharacterRun(t: string, enableDotInUserName: bool, tokens: seq<TokenCharacterType>, p: nat)
    requires |tokens| == |t| + 1 && p < |t| && t[p] !in {'h', '$', '@', '/', '.'}
    ensures Run(t, enableDotInUserName, Machine(DataState, p, tokens))
         == Run(t, enableDotInUserName, Machine(DataState, p + 1, tokens[p := Character]))
  {
    RunStep(t, enableDotInUserName, Machine(DataState, p, tokens), Machine(DataState, p + 1, tokens[p := Character]));
  }

  /** A stretch of characters DataState does not dispatch on is labelled Character, one by one. */
  lemma {:induction false} PlainRun(t: string, enableDotInUserName: bool, tokens: seq<TokenCharacterType>, p: nat, q: nat)
    requires |tokens| == |t| + 1 && p <= q <= |t|
    requires forall i :: p <= i < q ==> t[i] !in {'h', '$', '@', '/', '.'}
    ensures Run(t, enableDotInUserName, Machine(DataState, p, tokens))
         == Run(t, enableDotInUserName, Machine(DataState, q, Fill(tokens, Character, p, q)))
    decreases q - p
  {
    if p < q {
      PlainCharacterRun(t, enableDotInUserName, tokens, p);
      PlainRun(t, enableDotInUserName, tokens[p := Character], p + 1, q);
      FillAfterUpdate(tokens, Character, p, q);
    } else {
      assert Fill(tokens, Character, p, p) == tokens;
    }
  }

  /** The sentinel is labelled Eof, and the parse ends. */
  lemma EndOfInputRun(t: string, enableDotInUserName: bool, tokens: seq<TokenCharacterType>)
    requires |tokens| == |t| + 1
    ensures Run(t, enableDotInUserName, Machine(DataState, |t|, tokens)) == Machine(DataState, |t| + 1, tokens[|t| := Eof])
  {
    RunStep(t, enableDotInUserName, Machine(DataState, |t|, tokens), Machine(DataState, |t| + 1, tokens[|t| := Eof]));
  }

  /** A marker character moves DataState to the marker's state. */
  lemma OpensMarker(t: string, enableDotInUserName: bool, tokens: seq<TokenCharacterType>, p: nat, marker: State)
    requires |tokens| == |t| + 1 && p < |t| && IsMarkerState(marker) && t[p] == MarkerChar(marker)
    ensures Run(t, enableDotInUserName, Machine(DataState, p, tokens))
         == Run(t, enableDotInUserName, Machine(marker, p + 1, tokens))
  {
    RunStep(t, enableDotInUserName, Machine(DataState, p, tokens), Machine(marker, p + 1, tokens));
  }

  /**
   * A marker that its state accepts: the marker and the maximal run of the body
   * state it opens are labelled with that state's category.
   */
  lemma MarkerBodyRun(t: string, enableDotInUserName: bool, tokens: seq<TokenCharacterType>, p: nat, marker: State, body: State)
    requires |tokens| == |t| + 1 && p < |t| && IsMarkerState(marker) && t[p] == MarkerChar(marker) && IsBodyState(body)
    requires Step(t, enableDotInUserName, Machine(marker, p + 1, tokens)) == Machine(body, p + 1, tokens[p := BodyKind(body)])
    ensures var q := ScanWhile(t, p + 1, BodyClass(body, enableDotInUserName));
      Run(t, enableDotInUserName, Machine(DataState, p, tokens))
      == Run(t, enableDotInUserName, Machine(DataState, q, Fill(tokens, BodyKind(body), p, q)))
  {
    var kind := BodyKind(body);
    OpensMarker(t, enableDotInUserName, tokens, p, marker);
    RunStep(t, enableDotInUserName, Machine(marker, p + 1, tokens), Machine(body, p + 1, tokens[p := kind]));
    BodyRun(t, enableDotInUserName, body, tokens[p := kind], p + 1);
    var q := ScanWhile(t, p + 1, BodyClass(body, enableDotInUserName));
    assert Fill(tokens[p := kind], kind, p + 1, q) == Fill(tokens, kind, p, q) by {
      if q == p + 1 {
        assert Fill(tokens[p := kind], kind, p + 1, q) == tokens[p := kind];
      } else {
        FillAfterUpdate(tokens, kind, p, q);
      }
    }
  }

  /** A marker that its state rejects is a Character. */
  lemma MarkerRejectRun(t: string, enableDotInUserName: bool, tokens: seq<TokenCharacterType>, p: nat, marker: State)
    requires |tokens| == |t| + 1 && p < |t| && IsMarkerState(marker) && t[p] == MarkerChar(marker)
    requires Step(t, enableDotInUserName, Machine(marker, p + 1, tokens)) == Machine(DataState, p + 1, tokens[p := Character])
    ensures Run(t, enableDotInUserName, Machine(DataState, p, tokens))
         == Run(t, enableDotInUserName, Machine(DataState, p + 1, tokens[p := Character]))
  {
    OpensMarker(t, enableDotInUserName, tokens, p, marker);
    RunStep(t, enableDotInUserName, Machine(marker, p + 1, tokens), Machine(DataState, p + 1, tokens[p := Character]));
  }

  /**
   * `$` followed by an ASCII alphanumeric: the `$` and the maximal
   * alphanumeric run after it become Cash. Otherwise the `$` is Character.
   */
  lemma CashTagRun(t: string, enableDotInUserName: bool, tokens: seq<TokenCharacterType>, p: nat)
    requires |tokens| == |t| + 1 && p < |t| && t[p] == '$'
    ensures if p + 1 < |t| && IsAsciiAlphanumeric(t[p + 1]) then
        var q := ScanWhile(t, p + 1, AsciiAlphanumeric);
        Run(t, enableDotInUserName, Machine(DataState, p, tokens))
        == Run(t, enableDotInUserName, Machine(DataState, q, Fill(tokens, Cash, p, q)))
      else
        Run(t, enableDotInUserName, Machine(DataState, p, tokens))
        == Run(t, enableDotInUserName, Machine(DataState, p + 1, tokens[p := Character]))
  {
    if p + 1 < |t| && IsAsciiAlphanumeric(t[p + 1]) {
      MarkerBodyRun(t, enableDotInUserName, tokens, p, DollarState, CashTagState);
    } else {
      MarkerRejectRun(t, enableDotInUserName, tokens, p, DollarState);
    }
  }

  /**
   * `@` followed by a character of [A-Za-z0-9_-]: the `@` and the maximal
   * user-name run after it become UserName (a `-` qualifies the `@` but is not
   * in the body). Otherwise the `@` is Character.
   */
  lemma UserNameRun(t: string, enableDotInUserName: bool, tokens: seq<TokenCharacterType>, p: nat)
    requires |tokens| == |t| + 1 && p < |t| && t[p] == '@'
    ensures if p + 1 < |t| && InClass(AsciiAlphanumericUnderscoreDash, t[p + 1]) then
        var q := ScanWhile(t, p + 1, UserNameTokens(enableDotInUserName));
        Run(t, enableDotInUserName, Machine(DataState, p, tokens))
        == Run(t, enableDotInUserName, Machine(DataState, q, Fill(tokens, UserName, p, q)))
      else
        Run(t, enableDotInUserName, Machine(DataState, p, tokens))
        == Run(t, enableDotInUserName, Machine(DataState, p + 1, tokens[p := Character]))
  {
    if p + 1 < |t| && InClass(AsciiAlphanumericUnderscoreDash, t[p + 1]) {
      MarkerBodyRun(t, enableDotInUserName, tokens, p, AtState, UserNameState);
    } else {
      MarkerRejectRun(t, enableDotInUserName, tokens, p, AtState);
    }
  }

  /**
   * `/` at the start or after an empty character, followed by a character of
   * [A-Za-z0-9_-]: the `/` and the maximal run of that set become Channel.
   * Otherwise the `/` is Character.
   */
  lemma ChannelRun(t: string, enableDotInUserName: bool, tokens: seq<TokenCharacterType>, p: nat)
    requires |tokens| == |t| + 1 && p < |t| && t[p] == '/'
    ensures if (p == 0 || IsEmptyChar(t[p - 1])) && p + 1 < |t| && InClass(AsciiAlphanumericUnderscoreDash, t[p + 1]) then
        var q := ScanWhile(t, p + 1, AsciiAlphanumericUnderscoreDash);
        Run(t, enableDotInUserName, Machine(DataState, p, tokens))
        == Run(t, enableDotInUserName, Machine(DataState, q, Fill(tokens, Channel, p, q)))
      else
        Run(t, enableDotInUserName, Machine(DataState, p, tokens))
        == Run(t, enableDotInUserName, Machine(DataState, p + 1, tokens[p := Character]))
  {
    var s := Machine(SlashState, p + 1, tokens);
    if (p == 0 || IsEmptyChar(t[p - 1])) && p + 1 < |t| && InClass(AsciiAlphanumericUnderscoreDash, t[p + 1]) {
      assert Step(t, enableDotInUserName, s) == Machine(ChannelNameState, p + 1, tokens[p := Channel]) by {
        assert PrevIsSpace(t, p + 1);
      }
      MarkerBodyRun(t, enableDotInUserName, tokens, p, SlashState, ChannelNameState);
    } else {
      assert Step(t, enableDotInUserName, s) == Machine(DataState, p + 1, tokens[p := Character]) by {
        assert PrevIsSpace(t, p + 1) <==> p == 0 || IsEmptyChar(t[p - 1]);
      }
      MarkerRejectRun(t, enableDotInUserName, tokens, p, SlashState);
    }
  }

  /** HState's three outcomes, at the position after the `h`. */
  lemma SchemeStep(t: string, enableDotInUserName: bool, tokens: seq<TokenCharacterType>, p: nat)
    requires |tokens| == |t| + 1 && 1 <= p <= |t| && t[p - 1] == 'h'
    ensures FollowedBy(t, p, "ttps://", true) ==>
      Step(t, enableDotInUserName, Machine(HState, p, tokens)) == Machine(UrlState, p + 7, Fill(tokens, Url, p - 1, p + 7))
    ensures !FollowedBy(t, p, "ttps://", true) && FollowedBy(t, p, "ttp://", true) ==>
      Step(t, enableDotInUserName, Machine(HState, p, tokens)) == Machine(UrlState, p + 6, Fill(tokens, Url, p - 1, p + 6))
    ensures !FollowedBy(t, p, "ttps://", true) && !FollowedBy(t, p, "ttp://", true) ==>
      Step(t, enableDotInUserName, Machine(HState, p, tokens)) == Machine(DataState, p, tokens[p - 1 := Character])
  {
  }

  /**
   * A lowercase `h` followed by `ttps://` in any case: the scheme and the
   * following run of non-empty characters become Url, stopping before an empty
   * character or the end.
   */
  lemma HttpsUrlRun(t: string, enableDotInUserName: bool, tokens: seq<TokenCharacterType>, p: nat)
    requires |tokens| == |t| + 1 && p < |t| && t[p] == 'h' && FollowedBy(t, p + 1, "ttps://", true)
    ensures var q := ScanWhile(t, p + 8, NonEmpty);  // 8 == |"https://"|
      Run(t, enableDotInUserName, Machine(DataState, p, tokens))
      == Run(t, enableDotInUserName, Machine(DataState, q, Fill(tokens, Url, p, q)))
  {
    HttpsSchemeOpens(t, enableDotInUserName, tokens, p);
    assert BodyClass(UrlState, enableDotInUserName) == NonEmpty && BodyKind(UrlState) == Url;
    LabelledBodyRun(t, enableDotInUserName, UrlState, tokens, p, p + 8);
  }

  lemma HttpsSchemeOpens(t: string, enableDotInUserName: bool, tokens: seq<TokenCharacterType>, p: nat)
    requires |tokens| == |t| + 1 && p < |t| && t[p] == 'h' && FollowedBy(t, p + 1, "ttps://", true)
    ensures p + 8 <= |t|
    ensures Run(t, enableDotInUserName, Machine(DataState, p, tokens))
         == Run(t, enableDotInUserName, Machine(UrlState, p + 8, Fill(tokens, Url, p, p + 8)))
  {
    OpensMarker(t, enableDotInUserName, tokens, p, HState);
    SchemeStep(t, enableDotInUserName, tokens, p + 1);
    RunStep(t, enableDotInUserName, Machine(HState, p + 1, tokens), Machine(UrlState, p + 8, Fill(tokens, Url, p, p + 8)));
  }

  /** The same for `h` followed by `ttp://` (and not `ttps://`). */
  lemma HttpUrlRun(t: string, enableDotInUserName: bool, tokens: seq<TokenCharacterType>, p: nat)
    requires |tokens| == |t| + 1 && p < |t| && t[p] == 'h'
    requires !FollowedBy(t, p + 1, "ttps://", true) && FollowedBy(t, p + 1, "ttp://", true)
    ensures var q := ScanWhile(t, p + 7, NonEmpty);  // 7 == |"http://"|
      Run(t, enableDotInUserName, Machine(DataState, p, tokens))
      == Run(t, enableDotInUserName, Machine(DataState, q, Fill(tokens, Url, p, q)))
  {
    HttpSchemeOpens(t, enableDotInUserName, tokens, p);
    assert BodyClass(UrlState, enableDotInUserName) == NonEmpty && BodyKind(UrlState) == Url;
    LabelledBodyRun(t, enableDotInUserName, UrlState, tokens, p, p + 7);
  }

  lemma HttpSchemeOpens(t: string, enableDotInUserName: bool, tokens: seq<TokenCharacterType>, p: nat)
    requires |tokens| == |t| + 1 && p < |t| && t[p] == 'h' && !FollowedBy(t, p + 1, "ttps://", true) && FollowedBy(t, p + 1, "ttp://", true)
    ensures p + 7 <= |t|
    ensures Run(t, enableDotInUserName, Machine(DataState, p, tokens))
         == Run(t, enableDotInUserName, Machine(UrlState, p + 7, Fill(tokens, Url, p, p + 7)))
  {
    OpensMarker(t, enableDotInUserName, tokens, p, HState);
    SchemeStep(t, enableDotInUserName, tokens, p + 1);
    RunStep(t, enableDotInUserName, Machine(HState, p + 1, tokens), Machine(UrlState, p + 7, Fill(tokens, Url, p, p + 7)));
  }

  /** An `h` that does not start a scheme is a Character. */
  lemma PlainHRun(t: string, enableDotInUserName: bool, tokens: seq<TokenCharacterType>, p: nat)
    requires |tokens| == |t| + 1 && p < |t| && t[p] == 'h'
    requires !FollowedBy(t, p + 1, "ttps://", true) && !FollowedBy(t, p + 1, "ttp://", true)
    ensures Run(t, enableDotInUserName, Machine(DataState, p, tokens))
         == Run(t, enableDotInUserName, Machine(DataState, p + 1, tokens[p := Character]))
  {
    OpensMarker(t, enableDotInUserName, tokens, p, HState);
    SchemeStep(t, enableDotInUserName, tokens, p + 1);
    RunStep(t, enableDotInUserName, Machine(HState, p + 1, tokens), Machine(DataState, p + 1, tokens[p := Character]));
  }

  /**
   * `.` followed by a custom-user suffix (the first of DotSuffixes that
   * matches, ignoring case): the whole word up to the end of the suffix becomes
   * CustomUser, whatever it was labelled before.
   */
  lemma SuffixRun(t: string, enableDotInUserName: bool, tokens: seq<TokenCharacterType>, p: nat, suffix: string)
    requires |tokens| == |t| + 1 && p < |t| && t[p] == '.'
    requires FirstSuffix(t, p + 1, DotSuffixes) == Some(suffix)
    ensures Run(t, enableDotInUserName, Machine(DataState, p, tokens))
         == Run(t, enableDotInUserName,
                Machine(DataState, p + 1 + |suffix|, Fill(tokens, CustomUser, WordStart(t, p + 1), p + 1 + |suffix|)))
  {
    OpensMarker(t, enableDotInUserName, tokens, p, DotState);
    RunStep(t, enableDotInUserName, Machine(DotState, p + 1, tokens),
            Machine(DataState, p + 1 + |suffix|, Fill(tokens, CustomUser, WordStart(t, p + 1), p + 1 + |suffix|)));
  }

  /**
   * `.` followed by no custom-user suffix: the URL run that ends with the dot
   * and the URL run after it become Url.
   */
  lemma HeadlessUrlRun(t: string, enableDotInUserName: bool, tokens: seq<TokenCharacterType>, p: nat)
    requires |tokens| == |t| + 1 && p < |t| && t[p] == '.'
    requires FirstSuffix(t, p + 1, DotSuffixes).None?
    ensures var q := ScanWhile(t, p + 1, UrlChar);
      Run(t, enableDotInUserName, Machine(DataState, p, tokens))
      == Run(t, enableDotInUserName, Machine(DataState, q, Fill(tokens, Url, UrlRunStart(t, p + 1), q)))
  {
    HeadlessUrlFromData(t, enableDotInUserName, tokens, p);
    HeadlessUrlBody(t, enableDotInUserName, tokens, p + 1);
  }

  /** A `.` not followed by a known suffix switches to the headless-url state, labelling the run in front of it. */
  lemma HeadlessUrlFromData(t: string, enableDotInUserName: bool, tokens: seq<TokenCharacterType>, p: nat)
    requires |tokens| == |t| + 1 && p < |t| && t[p] == '.'
    requires FirstSuffix(t, p + 1, DotSuffixes).None?
    ensures Run(t, enableDotInUserName, Machine(DataState, p, tokens))
         == Run(t, enableDotInUserName, Machine(HeadlessUrlState, p + 1, Fill(tokens, Url, UrlRunStart(t, p + 1), p + 1)))
  {
    OpensMarker(t, enableDotInUserName, tokens, p, DotState);
    HeadlessUrlOpens(t, enableDotInUserName, tokens, p + 1);
  }

  lemma HeadlessUrlOpens(t: string, enableDotInUserName: bool, tokens: seq<TokenCharacterType>, p: nat)
    requires |tokens| == |t| + 1 && 1 <= p <= |t| && t[p - 1] == '.'
    requires FirstSuffix(t, p, DotSuffixes).None?
    ensures Run(t, enableDotInUserName, Machine(DotState, p, tokens))
         == Run(t, enableDotInUserName, Machine(HeadlessUrlState, p, Fill(tokens, Url, UrlRunStart(t, p), p)))
  {
    RunStep(t, enableDotInUserName, Machine(DotState, p, tokens), Machine(HeadlessUrlState, p, Fill(tokens, Url, UrlRunStart(t, p), p)));
  }

  lemma HeadlessUrlBody(t: string, enableDotInUserName: bool, tokens: seq<TokenCharacterType>, p: nat)
    requires |tokens| == |t| + 1 && p <= |t|
    ensures var q := ScanWhile(t, p, UrlChar);
      Run(t, enableDotInUserName, Machine(HeadlessUrlState, p, Fill(tokens, Url, UrlRunStart(t, p), p)))
      == Run(t, enableDotInUserName, Machine(DataState, q, Fill(tokens, Url, UrlRunStart(t, p), q)))
  {
    LabelledBodyRun(t, enableDotInUserName, HeadlessUrlState, tokens, UrlRunStart(t, p), p);
  }
}
