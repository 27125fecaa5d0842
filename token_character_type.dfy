/**
 * The category the tokenizer writes for every character of a post
 * (TokenCharacterType.kt). `UnKnown` is the fill value of a fresh category
 * array; `Eof` labels the virtual end-of-input slot.
 */
module TokenCharacterTypes {

  datatype TokenCharacterType =
    | Eof
    | Character
    | Url
    | Cash
    | UserName
    | Channel
    | CustomUser
    | HashTag
    | UnKnown

  /** Every category, in declaration order. */
  const AllTokenCharacterTypes: seq<TokenCharacterType> :=
    [Eof, Character, Url, Cash, UserName, Channel, CustomUser, HashTag, UnKnown]

  /** The enumeration has exactly nine distinct members. */
  lemma ExactlyNineCategories()
    ensures |AllTokenCharacterTypes| == 9
    ensures forall i, j :: 0 <= i < j < 9 ==> AllTokenCharacterTypes[i] != AllTokenCharacterTypes[j]
    ensures forall t: TokenCharacterType :: t in AllTokenCharacterTypes
  {
    forall t: TokenCharacterType ensures t in AllTokenCharacterTypes {
      match t
      case Eof => assert AllTokenCharacterTypes[0] == t;
      case Character => assert AllTokenCharacterTypes[1] == t;
      case Url => assert AllTokenCharacterTypes[2] == t;
      case Cash => assert AllTokenCharacterTypes[3] == t;
      case UserName => assert AllTokenCharacterTypes[4] == t;
      case Channel => assert AllTokenCharacterTypes[5] == t;
      case CustomUser => assert AllTokenCharacterTypes[6] == t;
      case HashTag => assert AllTokenCharacterTypes[7] == t;
      case UnKnown => assert AllTokenCharacterTypes[8] == t;
    }
  }
}
