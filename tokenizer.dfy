/**
 * The imperative tokenizer (Tokenizer.kt) together with the `read` step of
 * every state and the two backward scans (State.kt). The tokenizer owns the
 * category array and the current state; each state's `read` consumes from the
 * reader and writes the array, and is proved to perform the step
 * `States.Step` describes.
 */
module Tokenization {
  import opened Wrappers
  import opened Readers
  import opened TokenCharacterTypes
  import opened States

  /** The `customUserSuffix` default; the states never read it. */
  const DefaultCustomUserSuffix: seq<string> := ["twitter", "lens", "github", "telegram", "eth"]

  /** `indexOfLast { it == x }`: the last index holding `x`, or -1. */
  function LastIndexOf(s: seq<TokenCharacterType>, x: TokenCharacterType): (r: int)
    ensures -1 <= r < |s|
    ensures r >= 0 ==> s[r] == x
    ensures forall i :: r < i < |s| ==> s[i] != x
    decreases |s|
  {
    if s == [] then -1
    else if s[|s| - 1] == x then |s| - 1
    else LastIndexOf(s[..|s| - 1], x)
  }

  /**
   * The array after `reject(position)`: from one past the last Character
   * below `position` up to `position - 2`, every slot becomes Character.
   */
  function Rejected(tokens: seq<TokenCharacterType>, position: nat): (r: seq<TokenCharacterType>)
    requires position <= |tokens|
    ensures |r| == |tokens|
    ensures forall i :: 0 <= i < |tokens| && !(LastIndexOf(tokens[..position], Character) < i < position - 1) ==> r[i] == tokens[i]
    ensures forall i :: LastIndexOf(tokens[..position], Character) < i < position - 1 ==> r[i] == Character
  {
    Fill(tokens, Character, LastIndexOf(tokens[..position], Character) + 1, position - 1)
  }

  /** Rejecting twice at the same position is rejecting once. */
  lemma RejectIdempotent(tokens: seq<TokenCharacterType>, position: nat)
    requires position <= |tokens|
    ensures Rejected(Rejected(tokens, position), position) == Rejected(tokens, position)
  {
    var r := Rejected(tokens, position);
    var index := LastIndexOf(tokens[..position], Character) + 1;
    if index < position - 1 {
      // the last Character below `position` is now at `position - 2` or `position - 1`
      var index' := LastIndexOf(r[..position], Character) + 1;
      assert r[..position][position - 2] == Character;
      assert index' >= position - 1;
    } else {
      assert r == tokens;
    }
  }

  /** Rejecting right after a Character changes nothing. */
  lemma RejectAfterCharacterIsNoOp(tokens: seq<TokenCharacterType>, position: nat)
    requires 1 <= position <= |tokens| && tokens[position - 1] == Character
    ensures Rejected(tokens, position) == tokens
  {
    assert tokens[..position][position - 1] == Character;
  }

  class Tokenizer {
    const enableDotInUserName: bool
    const customUserSuffix: seq<string>
    /** The top-level-domain table HeadlessUrlState consults. */
    const domainList: seq<string>
    var currentState: State
    var tokens: array<TokenCharacterType>

    constructor (domainList: seq<string>, enableDotInUserName: bool := false,
                 customUserSuffix: seq<string> := DefaultCustomUserSuffix)
      ensures this.domainList == domainList
      ensures this.enableDotInUserName == enableDotInUserName
      ensures this.customUserSuffix == customUserSuffix
      ensures currentState == DataState
    {
      this.domainList := domainList;
      this.enableDotInUserName := enableDotInUserName;
      this.customUserSuffix := customUserSuffix;
      currentState := DataState;
      tokens := new TokenCharacterType[0];
    }

    /** The tokenizer and reader seen as a machine configuration. */
    ghost function Snapshot(reader: Reader): Machine
      reads this, tokens, reader
    {
      Machine(currentState, reader.position, tokens[..])
    }

    ghost predicate Valid(reader: Reader)
      reads this, tokens, reader
    {
      tokens.Length == reader.Length() && WellFormed(reader.text, Snapshot(reader))
    }

    /**
     * Runs the states until the reader is exhausted. The array has one slot
     * per reader symbol and ends up as `Tokenize` says; the loop only ends
     * after DataState consumed the sentinel, so the state is DataState again.
     */
    method Parse(reader: Reader) returns (result: seq<TokenCharacterType>)
      requires reader.position == 0 && currentState == DataState
      modifies this, reader
      ensures result == Tokenize(reader.text, enableDotInUserName)
      ensures |result| == reader.Length()
      ensures currentState == DataState && !reader.HasNext()
      ensures tokens.Length == |result| && forall i :: 0 <= i < |result| ==> ReadAt(i) == result[i]
    {
      var slots := new TokenCharacterType[reader.Length()](_ => UnKnown);
      tokens := slots;
      assert Snapshot(reader) == Initial(reader.text);
      while reader.HasNext()
        invariant tokens == slots
        invariant Valid(reader)
        invariant Run(reader.text, enableDotInUserName, Snapshot(reader))
               == Run(reader.text, enableDotInUserName, Initial(reader.text))
        decreases Measure(reader.text, Snapshot(reader))
      {
        Read(this, reader);
      }
      result := tokens[..];
    }

    /** `emit(t, index)` writes slot `index - 1` and nothing else. */
    method Emit(t: TokenCharacterType, index: nat)
      requires 1 <= index <= tokens.Length
      modifies tokens
      ensures tokens[..] == old(tokens[..])[index - 1 := t]
    {
      tokens[index - 1] := t;
    }

    /** `emitRange(t, start, end)` writes slots start..end-1; nothing when end <= start. */
    method EmitRange(t: TokenCharacterType, start: nat, end: nat)
      requires start < end ==> end <= tokens.Length
      modifies tokens
      ensures tokens[..] == Fill(old(tokens[..]), t, start, end)
      ensures end <= start ==> tokens[..] == old(tokens[..])
    {
      if start < end {
        for it := 0 to end - start
          invariant forall k :: 0 <= k < tokens.Length ==>
                      tokens[k] == if start <= k < start + it then t else old(tokens[k])
        {
          tokens[start + it] := t;
        }
      }
    }

    method Switch(state: State)
      modifies this`currentState
      ensures currentState == state
    {
      currentState := state;
    }

    /** `reject(position)`; `subList(0, position)` needs `position` within the array. */
    method Reject(position: nat)
      requires position <= tokens.Length
      modifies tokens
      ensures tokens[..] == Rejected(old(tokens[..]), position)
    {
      var index := LastIndexOf(tokens[..position], Character) + 1;
      if index < position - 1 {
        for it := 0 to position - index - 1
          invariant forall k :: 0 <= k < tokens.Length ==>
                      tokens[k] == if index <= k < index + it then Character else old(tokens[k])
        {
          tokens[index + it] := Character;
        }
      }
    }

    function ReadAt(position: nat): TokenCharacterType
      reads this, tokens
      requires position < tokens.Length
    {
      tokens[position]
    }

    /** `accept()` commits a token; the labels are already in place. */
    method Accept()
      ensures unchanged(this) && unchanged(tokens)
    {
    }
  }

  // -----------------------------------------------------------------------
  // The backward scans of State.kt, as the loops they are

  method FindBackwardSpace(reader: Reader) returns (start: nat)
    requires reader.Valid()
    ensures start <= reader.position
    ensures forall i :: start <= i < reader.position ==> !IsEmptySymbol(reader.ReadAt(i))
    ensures start == 0 || IsEmptySymbol(reader.ReadAt(start - 1))
    ensures start == WordStart(reader.text, reader.position)
  {
    var position: nat := reader.position;
    while position > 0
      invariant position <= reader.position
      invariant forall i :: position <= i < reader.position ==> !IsEmptySymbol(reader.ReadAt(i))
      invariant WordStart(reader.text, position) == WordStart(reader.text, reader.position)
    {
      if IsEmptySymbol(reader.ReadAt(position - 1)) {
        return position;
      }
      position := position - 1;
    }
    return 0;
  }

  method FindBackwardValidUrl(reader: Reader) returns (start: nat)
    requires reader.Valid()
    ensures start <= reader.position
    ensures forall i :: start <= i < reader.position ==> SymbolIn(UrlChar, reader.ReadAt(i))
    ensures start == 0 || !SymbolIn(UrlChar, reader.ReadAt(start - 1))
    ensures start == UrlRunStart(reader.text, reader.position)
  {
    var position: nat := reader.position;
    while position > 0
      invariant position <= reader.position
      invariant forall i :: position <= i < reader.position ==> SymbolIn(UrlChar, reader.ReadAt(i))
      invariant UrlRunStart(reader.text, position) == UrlRunStart(reader.text, reader.position)
    {
      if !SymbolIn(UrlChar, reader.ReadAt(position - 1)) {
        return position;
      }
      position := position - 1;
    }
    return 0;
  }

  // -----------------------------------------------------------------------
  // The `read` step of each state

  /** `currentState.read(this, reader)`. */
  method Read(tokenizer: Tokenizer, reader: Reader)
    requires tokenizer.Valid(reader) && reader.HasNext()
    modifies tokenizer`currentState, tokenizer.tokens, reader
    ensures tokenizer.Valid(reader)
    ensures tokenizer.Snapshot(reader)
         == Step(reader.text, tokenizer.enableDotInUserName, old(tokenizer.Snapshot(reader)))
  {
    match tokenizer.currentState
    case DataState => ReadDataState(tokenizer, reader);
    case HState => ReadHState(tokenizer, reader);
    case UrlState => ReadUrlState(tokenizer, reader);
    case DollarState => ReadDollarState(tokenizer, reader);
    case CashTagState => ReadCashTagState(tokenizer, reader);
    case AtState => ReadAtState(tokenizer, reader);
    case UserNameState => ReadUserNameState(tokenizer, reader);
    case SlashState => ReadSlashState(tokenizer, reader);
    case ChannelNameState => ReadChannelNameState(tokenizer, reader);
    case DotState => ReadDotState(tokenizer, reader);
    case HeadlessUrlState => ReadHeadlessUrlState(tokenizer, reader);
  }

  method ReadDataState(tokenizer: Tokenizer, reader: Reader)
    requires tokenizer.Valid(reader) && reader.HasNext() && tokenizer.currentState == DataState
    modifies tokenizer`currentState, tokenizer.tokens, reader
    ensures tokenizer.Snapshot(reader) == DataStep(reader.text, old(tokenizer.Snapshot(reader)))
  {
    var current := reader.Consume();
    if current == Ch('h') {
      tokenizer.Switch(HState);
    } else if current == Ch('$') {
      tokenizer.Switch(DollarState);
    } else if current == Ch('@') {
      tokenizer.Switch(AtState);
    } else if current == Ch('/') {
      tokenizer.Switch(SlashState);
    } else if current == Ch('.') {
      tokenizer.Switch(DotState);
    } else if current == EndOfInput {
      tokenizer.Emit(Eof, reader.position);
    } else {
      tokenizer.Emit(Character, reader.position);
    }
  }

  method ReadHState(tokenizer: Tokenizer, reader: Reader)
    requires tokenizer.Valid(reader) && reader.HasNext() && tokenizer.currentState == HState
    modifies tokenizer`currentState, tokenizer.tokens, reader
    ensures tokenizer.Snapshot(reader) == HStep(reader.text, old(tokenizer.Snapshot(reader)))
  {
    if reader.IsFollowedBy("ttps://", true) {
      EmitScheme(tokenizer, reader, "ttps://");
    } else if reader.IsFollowedBy("ttp://", true) {
      EmitScheme(tokenizer, reader, "ttp://");
    } else {
      tokenizer.Emit(Character, reader.position);
      tokenizer.Switch(DataState);
    }
  }

  /**
   * The `h` just read starts a scheme whose remaining letters `rest` follow:
   * label the `h` and `rest` as Url, skip `rest` and enter UrlState.
   */
  method EmitScheme(tokenizer: Tokenizer, reader: Reader, rest: string)
    requires tokenizer.Valid(reader) && 1 <= reader.position && reader.IsFollowedBy(rest, true)
    modifies tokenizer`currentState, tokenizer.tokens, reader
    ensures tokenizer.Snapshot(reader)
         == Machine(UrlState, old(reader.position) + |rest|,
                    Fill(old(tokenizer.tokens[..]), Url, old(reader.position) - 1, old(reader.position) - 1 + |rest| + 1))
  {
    tokenizer.EmitRange(Url, reader.position - 1, reader.position - 1 + |rest| + 1);
    tokenizer.Switch(UrlState);
    reader.ConsumeN(|rest|);
  }

  method ReadUrlState(tokenizer: Tokenizer, reader: Reader)
    requires tokenizer.Valid(reader) && reader.HasNext() && tokenizer.currentState == UrlState
    modifies tokenizer`currentState, tokenizer.tokens, reader
    ensures tokenizer.Snapshot(reader)
         == BodyStep(reader.text, tokenizer.enableDotInUserName, old(tokenizer.Snapshot(reader)))
  {
    var current := reader.Consume();
    if IsEmptySymbol(current) || current == EndOfInput {
      tokenizer.Accept();
      tokenizer.Switch(DataState);
      reader.Pushback();
    } else {
      tokenizer.Emit(Url, reader.position);
    }
  }

  method ReadDollarState(tokenizer: Tokenizer, reader: Reader)
    requires tokenizer.Valid(reader) && reader.HasNext() && tokenizer.currentState == DollarState
    modifies tokenizer`currentState, tokenizer.tokens, reader
    ensures tokenizer.Snapshot(reader) == DollarStep(reader.text, old(tokenizer.Snapshot(reader)))
  {
    var current := reader.Consume();
    if SymbolIn(AsciiAlphanumeric, current) {
      tokenizer.Emit(Cash, reader.position - 1);
      tokenizer.Switch(CashTagState);
      reader.Pushback();
    } else {
      tokenizer.Emit(Character, reader.position - 1);
      tokenizer.Switch(DataState);
      reader.Pushback();
    }
  }

  method ReadCashTagState(tokenizer: Tokenizer, reader: Reader)
    requires tokenizer.Valid(reader) && reader.HasNext() && tokenizer.currentState == CashTagState
    modifies tokenizer`currentState, tokenizer.tokens, reader
    ensures tokenizer.Snapshot(reader)
         == BodyStep(reader.text, tokenizer.enableDotInUserName, old(tokenizer.Snapshot(reader)))
  {
    var current := reader.Consume();
    if SymbolIn(AsciiAlphanumeric, current) {
      tokenizer.Emit(Cash, reader.position);
    } else {
      tokenizer.Accept();
      tokenizer.Switch(DataState);
      reader.Pushback();
    }
  }

  method ReadAtState(tokenizer: Tokenizer, reader: Reader)
    requires tokenizer.Valid(reader) && reader.HasNext() && tokenizer.currentState == AtState
    modifies tokenizer`currentState, tokenizer.tokens, reader
    ensures tokenizer.Snapshot(reader) == AtStep(reader.text, old(tokenizer.Snapshot(reader)))
  {
    var current := reader.Consume();
    if SymbolIn(AsciiAlphanumericUnderscoreDash, current) {
      tokenizer.Emit(UserName, reader.position - 1);
      tokenizer.Switch(UserNameState);
      reader.Pushback();
    } else {
      tokenizer.Emit(Character, reader.position - 1);
      tokenizer.Switch(DataState);
      reader.Pushback();
    }
  }

  method ReadUserNameState(tokenizer: Tokenizer, reader: Reader)
    requires tokenizer.Valid(reader) && reader.HasNext() && tokenizer.currentState == UserNameState
    modifies tokenizer`currentState, tokenizer.tokens, reader
    ensures tokenizer.Snapshot(reader)
         == BodyStep(reader.text, tokenizer.enableDotInUserName, old(tokenizer.Snapshot(reader)))
  {
    var userNameTokens := UserNameTokens(tokenizer.enableDotInUserName);
    var current := reader.Consume();
    if SymbolIn(userNameTokens, current) {
      tokenizer.Emit(UserName, reader.position);
    } else {
      tokenizer.Accept();
      tokenizer.Switch(DataState);
      reader.Pushback();
    }
  }

  method ReadSlashState(tokenizer: Tokenizer, reader: Reader)
    requires tokenizer.Valid(reader) && reader.HasNext() && tokenizer.currentState == SlashState
    modifies tokenizer`currentState, tokenizer.tokens, reader
    ensures tokenizer.Snapshot(reader) == SlashStep(reader.text, old(tokenizer.Snapshot(reader)))
  {
    if PrevIsSpace(reader.text, reader.position) {
      var current := reader.Consume();
      if SymbolIn(AsciiAlphanumericUnderscoreDash, current) {
        tokenizer.Emit(Channel, reader.position - 1);
        tokenizer.Switch(ChannelNameState);
        reader.Pushback();
      } else {
        tokenizer.Emit(Character, reader.position - 1);
        tokenizer.Switch(DataState);
        reader.Pushback();
      }
    } else {
      tokenizer.Emit(Character, reader.position);
      tokenizer.Switch(DataState);
    }
  }

  method ReadChannelNameState(tokenizer: Tokenizer, reader: Reader)
    requires tokenizer.Valid(reader) && reader.HasNext() && tokenizer.currentState == ChannelNameState
    modifies tokenizer`currentState, tokenizer.tokens, reader
    ensures tokenizer.Snapshot(reader)
         == BodyStep(reader.text, tokenizer.enableDotInUserName, old(tokenizer.Snapshot(reader)))
  {
    var current := reader.Consume();
    if SymbolIn(AsciiAlphanumericUnderscoreDash, current) {
      tokenizer.Emit(Channel, reader.position);
    } else {
      tokenizer.Accept();
      tokenizer.Switch(DataState);
      reader.Pushback();
    }
  }

  method ReadDotState(tokenizer: Tokenizer, reader: Reader)
    requires tokenizer.Valid(reader) && reader.HasNext() && tokenizer.currentState == DotState
    modifies tokenizer`currentState, tokenizer.tokens, reader
    ensures tokenizer.Snapshot(reader) == DotStep(reader.text, old(tokenizer.Snapshot(reader)))
  {
    ghost var suffix := FirstSuffix(reader.text, reader.position, DotSuffixes);
    if reader.IsFollowedBy("twitter", true) {
      assert suffix == Some("twitter");
      EmitCustomUser(tokenizer, reader, "twitter");
    } else if reader.IsFollowedBy("lens", true) {
      assert suffix == Some("lens");
      EmitCustomUser(tokenizer, reader, "lens");
    } else {
      // no suffix: the URL run up to the dot becomes Url
      assert suffix == None;
      var start := FindBackwardValidUrl(reader);
      tokenizer.EmitRange(Url, start, reader.position);
      tokenizer.Switch(HeadlessUrlState);
    }
  }

  /**
   * The suffix branch of `DotState.read`, the same for both suffixes: label
   * the word from its start through the suffix as CustomUser and skip the
   * suffix.
   */
  method EmitCustomUser(tokenizer: Tokenizer, reader: Reader, suffix: string)
    requires tokenizer.Valid(reader) && reader.IsFollowedBy(suffix, true)
    modifies tokenizer`currentState, tokenizer.tokens, reader
    ensures tokenizer.Snapshot(reader)
         == Machine(DataState, old(reader.position) + |suffix|,
                    Fill(old(tokenizer.tokens[..]), CustomUser, WordStart(reader.text, old(reader.position)),
                         old(reader.position) + |suffix|))
  {
    var start := FindBackwardSpace(reader);
    tokenizer.EmitRange(CustomUser, start, reader.position + |suffix|);
    reader.ConsumeN(|suffix|);
    tokenizer.Switch(DataState);
  }

  /** `value.split('.').lastOrNull()`: the symbols after the last dot. */
  function LastSegment(value: seq<Symbol>): (r: seq<Symbol>)
    ensures |r| <= |value| && r == value[|value| - |r|..]
    ensures Ch('.') !in r
    ensures |r| < |value| ==> value[|value| - |r| - 1] == Ch('.')
    decreases |value|
  {
    if value == [] then []
    else if value[|value| - 1] == Ch('.') then []
    else
      var front := value[..|value| - 1];
      var r := LastSegment(front);
      assert value[|front| - |r|..] == front[|front| - |r|..] + [value[|value| - 1]];
      r + [value[|value| - 1]]
  }

  /** `it.equals(value, ignoreCase = true)` for a domain `d` and the symbols `value`. */
  predicate EqualsIgnoreCase(d: string, value: seq<Symbol>)
  {
    |d| == |value| && forall i :: 0 <= i < |d| ==> value[i].Ch? && CharEquals(d[i], value[i].c, true)
  }

  /** `domainList.any { it.equals(value, ignoreCase = true) }`. */
  predicate IsKnownDomain(domainList: seq<string>, value: seq<Symbol>)
  {
    exists i :: 0 <= i < |domainList| && EqualsIgnoreCase(domainList[i], value)
  }

  /** The characters of `w` as reader symbols. */
  function Symbols(w: string): (r: seq<Symbol>)
    ensures |r| == |w| && forall i :: 0 <= i < |w| ==> r[i] == Ch(w[i])
  {
    Content(w)[..|w|]
  }

  /** Equality ignoring case is `isFollowedBy(d, ignoreCase = true)` at the start of a text of the same length. */
  lemma EqualsIgnoreCaseMatches(d: string, w: string)
    ensures EqualsIgnoreCase(d, Symbols(w)) <==> |d| == |w| && FollowedBy(w, 0, d, true)
  {
    FollowedByMatchesEachChar(w, 0, d, true);
    if |d| == |w| && FollowedBy(w, 0, d, true) {
      assert forall i :: 0 <= i < |d| ==> CharEquals(w[0 + i], d[i], true);
    }
  }

  /** A value is a known domain exactly when some entry of the table matches it, ignoring case. */
  lemma IsKnownDomainMatches(domainList: seq<string>, w: string)
    ensures IsKnownDomain(domainList, Symbols(w))
        <==> exists i :: 0 <= i < |domainList| && |domainList[i]| == |w| && FollowedBy(w, 0, domainList[i], true)
  {
    forall i | 0 <= i < |domainList| {
      EqualsIgnoreCaseMatches(domainList[i], w);
    }
  }

  /**
   * `HeadlessUrlState.read`. On the terminator the backward scan starts just
   * past the terminator, which is not a URL character, so it returns the
   * cursor itself: both relabellings cover an empty range and the domain
   * table cannot change a label.
   */
  method ReadHeadlessUrlState(tokenizer: Tokenizer, reader: Reader)
    requires tokenizer.Valid(reader) && reader.HasNext() && tokenizer.currentState == HeadlessUrlState
    modifies tokenizer`currentState, tokenizer.tokens, reader
    ensures tokenizer.Snapshot(reader)
         == BodyStep(reader.text, tokenizer.enableDotInUserName, old(tokenizer.Snapshot(reader)))
  {
    var current := reader.Consume();
    if !SymbolIn(UrlChar, current) {
      EndHeadlessUrl(tokenizer, reader);
    } else {
      tokenizer.Emit(Url, reader.position);
    }
  }

  /** The terminator branch of `HeadlessUrlState.read`: it leaves every label as it is. */
  method EndHeadlessUrl(tokenizer: Tokenizer, reader: Reader)
    requires tokenizer.tokens.Length == reader.Length() && 1 <= reader.position <= reader.Length()
    requires !SymbolIn(UrlChar, reader.ReadAt(reader.position - 1))
    modifies tokenizer`currentState, tokenizer.tokens, reader
    ensures tokenizer.tokens[..] == old(tokenizer.tokens[..])
    ensures tokenizer.currentState == DataState && reader.position == old(reader.position) - 1
  {
    var start := FindBackwardValidUrl(reader);
    assert start == reader.position;
    // `split` always yields at least one part, so `value` is never null
    var value := LastSegment(reader.ReadAtRange(start, reader.position - start));
    RelabelDomain(tokenizer, reader, start, value);
  }

  /**
   * Relabels `[start, position)` as Url when `value`, the last dot-separated
   * part of that range, is a known domain and as Character otherwise, then
   * goes back to DataState without the terminator. Here the range is empty.
   */
  method RelabelDomain(tokenizer: Tokenizer, reader: Reader, start: nat, value: seq<Symbol>)
    requires tokenizer.tokens.Length == reader.Length() && 1 <= reader.position <= reader.Length()
    requires start == reader.position
    modifies tokenizer`currentState, tokenizer.tokens, reader
    ensures tokenizer.tokens[..] == old(tokenizer.tokens[..])
    ensures tokenizer.currentState == DataState && reader.position == old(reader.position) - 1
  {
    if IsKnownDomain(tokenizer.domainList, value) {
      tokenizer.EmitRange(Url, start, reader.position);
    } else {
      tokenizer.EmitRange(Character, start, reader.position);
    }
    tokenizer.Accept();
    tokenizer.Switch(DataState);
    reader.Pushback();
  }
}
