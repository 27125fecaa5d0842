/**
 * The façade (FarcasterParser.kt): tokenize the post with a fresh tokenizer
 * in the default configuration, then build the nodes, each stage over a
 * reader of its own.
 */
module FarcasterParsing {
  import opened TokenCharacterTypes
  import opened Nodes
  import opened Readers
  import opened States
  import opened StateProperties
  import opened Tokenization
  import opened TreeBuilding

  /** `FarcasterParser().parse(input)` as a function of the input. */
  function Parsed(input: string): seq<Node>
  {
    TokenizeLabelsEverySlot(input, false);
    BuildSpec(input, Tokenize(input, false))
  }

  /** The tokenizer's output is shaped the way the tree builder needs. */
  lemma TokenizeOnlyEndsWithEof(input: string)
    ensures OnlySentinelIsEof(input, Tokenize(input, false))
    ensures forall i :: 0 <= i < |input| ==> Tokenize(input, false)[i] !in {UnKnown, HashTag}
  {
    TokenizeLabelsEverySlot(input, false);
  }

  /** End to end, the node texts concatenated give back the input. */
  lemma ParsedIsLossless(input: string)
    ensures Flatten(Parsed(input)) == input
  {
    TokenizeOnlyEndsWithEof(input);
    BuildLossless(input, Tokenize(input, false));
  }

  /** The sentinel's EofNode is removed and no other exists. */
  lemma ParsedHasNoEofNode(input: string)
    ensures EofNode !in Parsed(input)
  {
    TokenizeOnlyEndsWithEof(input);
    BuildHasNoEofNode(input, Tokenize(input, false));
  }

  /** No state labels HashTag, so no HashTagNode is ever built. */
  lemma ParsedHasNoHashTagNode(input: string)
    ensures forall n :: n in Parsed(input) ==> !n.HashTagNode?
  {
    var cats := Tokenize(input, false);
    TokenizeOnlyEndsWithEof(input);
    BuildNodesHaveSlotCategories(input, cats);
    forall n | n in Parsed(input) ensures !n.HashTagNode? {
      var i :| 0 <= i < |input| && cats[i] in NodeCategories(n);
      assert cats[i] != HashTag;
    }
  }

  /** Every node covers at least one character, so there are at most as many nodes as characters. */
  lemma ParsedNodesAreNonEmpty(input: string)
    ensures forall n :: n in Parsed(input) ==> NodeText(n) != ""
    ensures |Parsed(input)| <= |input|
  {
    TokenizeOnlyEndsWithEof(input);
    BuildNodesAreNonEmpty(input, Tokenize(input, false));
  }

  /** An empty post has no nodes. */
  lemma ParsedEmpty()
    ensures Parsed("") == []
  {
    ParsedNodesAreNonEmpty("");
  }

  /**
   * `parse`: a fresh tokenizer with `enableDotInUserName` off labels the
   * input through one reader, and the tree builder groups the labels, reading
   * the text through another.
   */
  method Parse(input: string, domainList: seq<string>) returns (nodes: seq<Node>)
    ensures nodes == Parsed(input)
    ensures Flatten(nodes) == input
  {
    var tokenizer := new Tokenizer(domainList);
    var tokenReader := new Reader(input);
    var categories := tokenizer.Parse(tokenReader);
    TokenizeOnlyEndsWithEof(input);
    var buildReader := new Reader(input);
    nodes := Build(buildReader, categories);
    assert categories[..buildReader.Length()] == categories;
    ParsedIsLossless(input);
  }
}
