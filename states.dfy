/**
 * The tokenizer's state machine (State.kt) as values: the character sets,
 * the backward scans, and one step of each state as a function from a machine
 * configuration to the next one. The imperative tokenizer in module
 * Tokenization is proved to perform exactly these steps.
 */
module States {
  import opened Wrappers
  import opened Readers
  import opened TokenCharacterTypes

  // ---------------------------------------------------------------------
  // Character sets (State.kt:2-17)

  predicate IsAsciiAlpha(c: char) { 'A' <= c <= 'Z' || 'a' <= c <= 'z' }
  predicate IsAsciiDigit(c: char) { '0' <= c <= '9' }
  predicate IsAsciiAlphanumeric(c: char) { IsAsciiAlpha(c) || IsAsciiDigit(c) }

  /** TAB, LF, FF and space: the `emptyChar` list. */
  predicate IsEmptyChar(c: char) { c == '\t' || c == '\n' || c == '\U{000C}' || c == ' ' }

  /** The sets the states test consumed symbols against. */
  datatype CharClass =
    | AsciiAlphanumeric                // `$` qualifier and cashtag body
    | AsciiAlphanumericUnderscore      // user-name body
    | AsciiAlphanumericUnderscoreDot   // user-name body when dots are enabled
    | AsciiAlphanumericUnderscoreDash  // `@` and `/` qualifier, channel body
    | UrlChar                          // headless URL: alphanumerics, `-` and `.`
    | NonEmpty                         // URL body: anything but `emptyChar`

  predicate InClass(k: CharClass, c: char)
  {
    match k
    case AsciiAlphanumeric => IsAsciiAlphanumeric(c)
    case AsciiAlphanumericUnderscore => IsAsciiAlphanumeric(c) || c == '_'
    case AsciiAlphanumericUnderscoreDot => IsAsciiAlphanumeric(c) || c == '_' || c == '.'
    case AsciiAlphanumericUnderscoreDash => IsAsciiAlphanumeric(c) || c == '_' || c == '-'
    case UrlChar => IsAsciiAlphanumeric(c) || c == '-' || c == '.'
    case NonEmpty => !IsEmptyChar(c)
  }

  /** Membership of a consumed symbol; the end-of-input symbol is in no set. */
  predicate SymbolIn(k: CharClass, s: Symbol)
  {
    s.Ch? && InClass(k, s.c)
  }

  predicate IsEmptySymbol(s: Symbol)
  {
    s.Ch? && IsEmptyChar(s.c)
  }

  // ---------------------------------------------------------------------
  // Backward scans and the word-boundary test (State.kt:20-36, 202-213)

  /**
   * `findBackwardSpace`: the start of the whitespace-delimited word that ends
   * at `pos`.
   */
  function WordStart(t: string, pos: nat): (s: nat)
    requires pos <= |t| + 1
    ensures s <= pos
    ensures forall i :: s <= i < pos ==> !IsEmptySymbol(SymAt(t, i))
    ensures s == 0 || IsEmptySymbol(SymAt(t, s - 1))
    decreases pos
  {
    if pos == 0 then 0
    else if IsEmptySymbol(SymAt(t, pos - 1)) then pos
    else WordStart(t, pos - 1)
  }

  /**
   * `findBackwardValidUrl`: the start of the run of URL characters that ends
   * at `pos`.
   */
  function UrlRunStart(t: string, pos: nat): (s: nat)
    requires pos <= |t| + 1
    ensures s <= pos
    ensures forall i :: s <= i < pos ==> SymbolIn(UrlChar, SymAt(t, i))
    ensures s == 0 || !SymbolIn(UrlChar, SymAt(t, s - 1))
    decreases pos
  {
    if pos == 0 then 0
    else if !SymbolIn(UrlChar, SymAt(t, pos - 1)) then pos
    else UrlRunStart(t, pos - 1)
  }

  /**
   * `prevIsSpace`, asked with the cursor just past a `/` at index `pos - 1`:
   * the slash is the first character or follows an empty character.
   */
  predicate PrevIsSpace(t: string, pos: nat)
    requires 1 <= pos <= |t| + 1
  {
    pos == 1 || IsEmptyChar(t[pos - 2])
  }

  /** The character just read starts a word exactly when the word ending before it is empty. */
  lemma PrevIsSpaceAtWordBoundary(t: string, pos: nat)
    requires 1 <= pos <= |t| + 1
    ensures PrevIsSpace(t, pos) <==> WordStart(t, pos - 1) == pos - 1
  {
    if pos > 1 && !IsEmptyChar(t[pos - 2]) {
      assert !IsEmptySymbol(SymAt(t, pos - 2));
      assert WordStart(t, pos - 1) == WordStart(t, pos - 2);
    }
  }

  // ---------------------------------------------------------------------
  // Custom-user suffixes (State.kt:217-226)

  /** The suffixes DotState tests, in the order it tests them. */
  const DotSuffixes: seq<string> := ["twitter", "lens"]

  /** The first suffix in `suffixes` that follows `pos`, ignoring case. */
  function FirstSuffix(t: string, pos: nat, suffixes: seq<string>): (r: Option<string>)
    ensures r.Some? ==> r.value in suffixes && FollowedBy(t, pos, r.value, true)
    ensures r.Some? ==> exists k :: 0 <= k < |suffixes| && suffixes[k] == r.value &&
                          forall j :: 0 <= j < k ==> !FollowedBy(t, pos, suffixes[j], true)
    ensures r.None? <==> forall j :: 0 <= j < |suffixes| ==> !FollowedBy(t, pos, suffixes[j], true)
    decreases |suffixes|
  {
    if suffixes == [] then None
    else if FollowedBy(t, pos, suffixes[0], true) then Some(suffixes[0])
    else
      var r := FirstSuffix(t, pos, suffixes[1..]);
      assert r.Some? ==> exists k :: 0 <= k < |suffixes| && suffixes[k] == r.value &&
                          forall j :: 0 <= j < k ==> !FollowedBy(t, pos, suffixes[j], true) by {
        if r.Some? {
          var k :| 0 <= k < |suffixes[1..]| && suffixes[1..][k] == r.value &&
                    forall j :: 0 <= j < k ==> !FollowedBy(t, pos, suffixes[1..][j], true);
          assert forall j :: 0 <= j < k + 1 ==> !FollowedBy(t, pos, suffixes[j], true) by {
            forall j | 0 <= j < k + 1 ensures !FollowedBy(t, pos, suffixes[j], true) {
              if j > 0 { assert suffixes[j] == suffixes[1..][j - 1]; }
            }
          }
        }
      }
      assert r.None? ==> forall j :: 0 <= j < |suffixes| ==> !FollowedBy(t, pos, suffixes[j], true) by {
        if r.None? {
          forall j | 0 <= j < |suffixes| ensures !FollowedBy(t, pos, suffixes[j], true) {
            if j > 0 { assert suffixes[j] == suffixes[1..][j - 1]; }
          }
        }
      }
      r
  }

  // ---------------------------------------------------------------------
  // Writing the category array (Tokenizer.kt:17-31)

  /** The array after `emitRange(t, start, end)`: slots start..end-1 set to `t`. */
  function Fill(tokens: seq<TokenCharacterType>, t: TokenCharacterType, start: int, end: int)
    : (r: seq<TokenCharacterType>)
    ensures |r| == |tokens|
    ensures forall i :: 0 <= i < |r| ==> r[i] == if start <= i < end then t else tokens[i]
  {
    seq(|tokens|, i requires 0 <= i < |tokens| => if start <= i < end then t else tokens[i])
  }

  // ---------------------------------------------------------------------
  // The machine

  datatype State =
    | DataState
    | HState
    | UrlState
    | DollarState
    | CashTagState
    | AtState
    | UserNameState
    | SlashState
    | ChannelNameState
    | DotState
    | HeadlessUrlState

  /** States entered right after consuming their trigger character. */
  predicate IsMarkerState(s: State)
  {
    s == HState || s == DollarState || s == AtState || s == SlashState || s == DotState
  }

  /** States that label a run of characters one at a time. */
  predicate IsBodyState(s: State)
  {
    s == UrlState || s == CashTagState || s == UserNameState || s == ChannelNameState || s == HeadlessUrlState
  }

  /** The character DataState consumed to enter a marker state. */
  function MarkerChar(s: State): char
    requires IsMarkerState(s)
  {
    match s
    case HState => 'h'
    case DollarState => '$'
    case AtState => '@'
    case SlashState => '/'
    case DotState => '.'
  }

  /** The user-name body set; `.` belongs to it only when enabled. */
  function UserNameTokens(enableDotInUserName: bool): CharClass
  {
    if enableDotInUserName then AsciiAlphanumericUnderscoreDot else AsciiAlphanumericUnderscore
  }

  /** The set a body state keeps consuming. */
  function BodyClass(s: State, enableDotInUserName: bool): CharClass
    requires IsBodyState(s)
  {
    match s
    case UrlState => NonEmpty
    case CashTagState => AsciiAlphanumeric
    case UserNameState => UserNameTokens(enableDotInUserName)
    case ChannelNameState => AsciiAlphanumericUnderscoreDash
    case HeadlessUrlState => UrlChar
  }

  /** The category a body state writes. */
  function BodyKind(s: State): TokenCharacterType
    requires IsBodyState(s)
  {
    match s
    case UrlState => Url
    case CashTagState => Cash
    case UserNameState => UserName
    case ChannelNameState => Channel
    case HeadlessUrlState => Url
  }

  /** A tokenizer mid-parse: its current state, the reader position and the array. */
  datatype Machine = Machine(state: State, pos: nat, tokens: seq<TokenCharacterType>)

  /**
   * The configurations a parse of `t` passes through: one slot per content
   * symbol, the cursor within the content, only DataState ever past the
   * sentinel, and a marker state just past its trigger character.
   */
  predicate WellFormed(t: string, m: Machine)
  {
    && |m.tokens| == |t| + 1
    && m.pos <= |t| + 1
    && (m.state != DataState ==> m.pos <= |t|)
    && (IsMarkerState(m.state) ==> 1 <= m.pos && t[m.pos - 1] == MarkerChar(m.state))
  }

  function Rank(s: State): nat
  {
    if s == DataState then 0 else if IsBodyState(s) then 1 else 2
  }

  /** Decreases with every step: symbols left, weighted, plus the state's rank. */
  function Measure(t: string, m: Machine): nat
    requires m.pos <= |t| + 1
  {
    3 * (|t| + 1 - m.pos) + Rank(m.state)
  }

  /** `DataState.read`: it always consumes one symbol. */
  function DataStep(t: string, m: Machine): (r: Machine)
    requires WellFormed(t, m) && m.state == DataState && m.pos <= |t|
    ensures WellFormed(t, r) && Measure(t, r) < Measure(t, m)
    ensures r.pos == m.pos + 1
  {
    var p := m.pos;
    match SymAt(t, p)
    case EndOfInput => Machine(DataState, p + 1, m.tokens[p := Eof])
    case Ch(c) =>
      if c == 'h' then Machine(HState, p + 1, m.tokens)
      else if c == '$' then Machine(DollarState, p + 1, m.tokens)
      else if c == '@' then Machine(AtState, p + 1, m.tokens)
      else if c == '/' then Machine(SlashState, p + 1, m.tokens)
      else if c == '.' then Machine(DotState, p + 1, m.tokens)
      else Machine(DataState, p + 1, m.tokens[p := Character])
  }

  /** `HState.read`: the rest of an `https://` or `http://` scheme, any case. */
  function HStep(t: string, m: Machine): (r: Machine)
    requires WellFormed(t, m) && m.state == HState
    ensures WellFormed(t, r) && Measure(t, r) < Measure(t, m)
  {
    var p := m.pos;
    if FollowedBy(t, p, "ttps://", true) then
      Machine(UrlState, p + |"ttps://"|, Fill(m.tokens, Url, p - 1, p - 1 + |"https://"|))
    else if FollowedBy(t, p, "ttp://", true) then
      Machine(UrlState, p + |"ttp://"|, Fill(m.tokens, Url, p - 1, p - 1 + |"http://"|))
    else
      Machine(DataState, p, m.tokens[p - 1 := Character])
  }

  /**
   * `read` of UrlState, CashTagState, UserNameState, ChannelNameState and
   * HeadlessUrlState: label the consumed symbol while it is in the state's set,
   * otherwise push it back and return to DataState. (HeadlessUrlState's
   * relabelling on the terminator covers an empty range; see
   * Tokenization.ReadHeadlessUrlState.)
   */
  function BodyStep(t: string, enableDotInUserName: bool, m: Machine): (r: Machine)
    requires WellFormed(t, m) && IsBodyState(m.state)
    ensures WellFormed(t, r) && Measure(t, r) < Measure(t, m)
  {
    var p := m.pos;
    if SymbolIn(BodyClass(m.state, enableDotInUserName), SymAt(t, p)) then
      Machine(m.state, p + 1, m.tokens[p := BodyKind(m.state)])
    else
      Machine(DataState, p, m.tokens)
  }

  /** `DollarState.read`: an alphanumeric makes the `$` a cashtag. */
  function DollarStep(t: string, m: Machine): (r: Machine)
    requires WellFormed(t, m) && m.state == DollarState
    ensures WellFormed(t, r) && Measure(t, r) < Measure(t, m)
  {
    var p := m.pos;
    if SymbolIn(AsciiAlphanumeric, SymAt(t, p)) then Machine(CashTagState, p, m.tokens[p - 1 := Cash])
    else Machine(DataState, p, m.tokens[p - 1 := Character])
  }

  /** `AtState.read`: a user-name character or `-` makes the `@` a mention. */
  function AtStep(t: string, m: Machine): (r: Machine)
    requires WellFormed(t, m) && m.state == AtState
    ensures WellFormed(t, r) && Measure(t, r) < Measure(t, m)
  {
    var p := m.pos;
    if SymbolIn(AsciiAlphanumericUnderscoreDash, SymAt(t, p)) then Machine(UserNameState, p, m.tokens[p - 1 := UserName])
    else Machine(DataState, p, m.tokens[p - 1 := Character])
  }

  /** `SlashState.read`: a channel needs a word boundary before the `/`. */
  function SlashStep(t: string, m: Machine): (r: Machine)
    requires WellFormed(t, m) && m.state == SlashState
    ensures WellFormed(t, r) && Measure(t, r) < Measure(t, m)
  {
    var p := m.pos;
    if PrevIsSpace(t, p) && SymbolIn(AsciiAlphanumericUnderscoreDash, SymAt(t, p)) then
      Machine(ChannelNameState, p, m.tokens[p - 1 := Channel])
    else
      Machine(DataState, p, m.tokens[p - 1 := Character])
  }

  /**
   * `DotState.read`: a custom-user suffix relabels the whole word, otherwise
   * the URL run up to the dot is labelled and a headless URL begins.
   */
  function DotStep(t: string, m: Machine): (r: Machine)
    requires WellFormed(t, m) && m.state == DotState
    ensures WellFormed(t, r) && Measure(t, r) < Measure(t, m)
  {
    var p := m.pos;
    match FirstSuffix(t, p, DotSuffixes)
    case Some(suffix) =>
      Machine(DataState, p + |suffix|, Fill(m.tokens, CustomUser, WordStart(t, p), p + |suffix|))
    case None =>
      Machine(HeadlessUrlState, p, Fill(m.tokens, Url, UrlRunStart(t, p), p))
  }

  /** `currentState.read(this, reader)`, taken while `reader.hasNext()`. */
  function Step(t: string, enableDotInUserName: bool, m: Machine): (r: Machine)
    requires WellFormed(t, m) && m.pos < |t| + 1
    ensures WellFormed(t, r) && Measure(t, r) < Measure(t, m)
  {
    match m.state
    case DataState => DataStep(t, m)
    case HState => HStep(t, m)
    case DollarState => DollarStep(t, m)
    case AtState => AtStep(t, m)
    case SlashState => SlashStep(t, m)
    case DotState => DotStep(t, m)
    case UrlState => BodyStep(t, enableDotInUserName, m)
    case CashTagState => BodyStep(t, enableDotInUserName, m)
    case UserNameState => BodyStep(t, enableDotInUserName, m)
    case ChannelNameState => BodyStep(t, enableDotInUserName, m)
    case HeadlessUrlState => BodyStep(t, enableDotInUserName, m)
  }

  /**
   * The parse loop from `m` on. It always stops, and it stops in DataState
   * having consumed the sentinel.
   */
  function Run(t: string, enableDotInUserName: bool, m: Machine): (r: Machine)
    requires WellFormed(t, m)
    ensures WellFormed(t, r) && r.pos == |t| + 1 && r.state == DataState
    decreases Measure(t, m)
  {
    if m.pos < |t| + 1 then Run(t, enableDotInUserName, Step(t, enableDotInUserName, m)) else m
  }

  /** A fresh parse: DataState, nothing consumed, every slot UnKnown. */
  function Initial(t: string): (m: Machine)
    ensures WellFormed(t, m)
  {
    Machine(DataState, 0, seq(|t| + 1, _ => UnKnown))
  }

  /** The category array `Tokenizer.parse` returns for the text `t`. */
  function Tokenize(t: string, enableDotInUserName: bool): (r: seq<TokenCharacterType>)
    ensures |r| == |t| + 1
  {
    Run(t, enableDotInUserName, Initial(t)).tokens
  }
}
