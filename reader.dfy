/**
 * The character cursor the tokenizer and the tree builder read from. Its
 * source (`Reader`, `StringReader`, `eof`) is not part of this model; it is
 * reconstructed from its uses. The reader's content is the text followed by
 * one virtual end-of-input symbol, so `Length()` is the text length plus one
 * and index `|text|` holds `EndOfInput`. The sentinel is a constructor of its
 * own, so no input character can be mistaken for it.
 */
module Readers {

  datatype Symbol = Ch(c: char) | EndOfInput

  /** The symbol at index `i` of the reader's content. */
  function SymAt(text: string, i: nat): (s: Symbol)
    requires i <= |text|
    ensures s.EndOfInput? <==> i == |text|
  {
    if i < |text| then Ch(text[i]) else EndOfInput
  }

  /** The reader's content: every character of the text, then the sentinel. */
  function Content(text: string): (r: seq<Symbol>)
    ensures |r| == |text| + 1
    ensures forall i :: 0 <= i < |r| ==> r[i] == SymAt(text, i)
  {
    seq(|text| + 1, i requires 0 <= i <= |text| => SymAt(text, i))
  }

  /** ASCII case folding, the only case mapping this model knows. */
  function AsciiLowercase(c: char): char
  {
    if 'A' <= c <= 'Z' then (c as int - 'A' as int + 'a' as int) as char else c
  }

  function CharEquals(a: char, b: char, ignoreCase: bool): bool
  {
    if ignoreCase then AsciiLowercase(a) == AsciiLowercase(b) else a == b
  }

  /** `s` occurs in `text` starting at index `pos`, character by character. */
  function FollowedBy(text: string, pos: nat, s: string, ignoreCase: bool): (r: bool)
    ensures r ==> pos + |s| <= |text|
    decreases |s|
  {
    if s == [] then pos <= |text|
    else pos < |text| && CharEquals(text[pos], s[0], ignoreCase) && FollowedBy(text, pos + 1, s[1..], ignoreCase)
  }

  /** `s` follows `pos` exactly when each of its characters matches the text there. */
  lemma {:induction false} FollowedByMatchesEachChar(text: string, pos: nat, s: string, ignoreCase: bool)
    ensures FollowedBy(text, pos, s, ignoreCase)
        <==> pos + |s| <= |text| && forall i :: 0 <= i < |s| ==> CharEquals(text[pos + i], s[i], ignoreCase)
    decreases |s|
  {
    if s != [] {
      FollowedByMatchesEachChar(text, pos + 1, s[1..], ignoreCase);
      if pos + |s| <= |text| && forall i :: 0 <= i < |s| ==> CharEquals(text[pos + i], s[i], ignoreCase) {
        forall i | 0 <= i < |s[1..]| ensures CharEquals(text[pos + 1 + i], s[1..][i], ignoreCase) {
          assert text[pos + 1 + i] == text[pos + (i + 1)];
        }
      }
      if FollowedBy(text, pos, s, ignoreCase) {
        forall i | 0 <= i < |s| ensures CharEquals(text[pos + i], s[i], ignoreCase) {
          if i > 0 {
            assert s[i] == s[1..][i - 1];
            assert text[pos + i] == text[(pos + 1) + (i - 1)];
          }
        }
      }
    }
  }

  class Reader {
    const text: string
    /** How many symbols have been consumed. */
    var position: nat

    constructor (text: string)
      ensures this.text == text && position == 0
    {
      this.text := text;
      position := 0;
    }

    function Length(): nat
    {
      |text| + 1
    }

    predicate Valid()
      reads this
    {
      position <= Length()
    }

    predicate HasNext()
      reads this
    {
      position < Length()
    }

    function ReadAt(i: nat): Symbol
      requires i < Length()
    {
      SymAt(text, i)
    }

    /** The `len` symbols starting at `start`. */
    function ReadAtRange(start: nat, len: nat): (r: seq<Symbol>)
      requires start + len <= Length()
      ensures |r| == len
    {
      Content(text)[start..start + len]
    }

    predicate IsFollowedBy(s: string, ignoreCase: bool)
      reads this
    {
      FollowedBy(text, position, s, ignoreCase)
    }

    method Consume() returns (c: Symbol)
      requires HasNext()
      modifies this
      ensures position == old(position) + 1 && Valid()
      ensures c == ReadAt(old(position))
    {
      c := ReadAt(position);
      position := position + 1;
    }

    method ConsumeN(count: nat)
      requires position + count <= Length()
      modifies this
      ensures position == old(position) + count && Valid()
    {
      position := position + count;
    }

    /** Un-consumes one symbol; pushing back before the start is a programming error. */
    method Pushback()
      requires 0 < position <= Length()
      modifies this
      ensures position == old(position) - 1 && Valid()
    {
      position := position - 1;
    }
  }
}
