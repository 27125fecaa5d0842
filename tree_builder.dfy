/**
 * The tree builder (TreeBuilder.kt): it cuts the category array into maximal
 * runs of one category, turns every run into a node carrying the run's text,
 * and finally drops the first `EofNode` (Kotlin's `nodes - EofNode` removes
 * one occurrence).
 */
module TreeBuilding {
  import opened Wrappers
  import opened Readers
  import opened TokenCharacterTypes
  import opened Nodes

  /** A run of slots `[start, end)` that all carry `kind`. */
  datatype Span = Span(kind: TokenCharacterType, start: nat, end: nat)

  /** `spans` cut `[0, n)` into consecutive non-empty pieces, in order. */
  predicate Tiles(spans: seq<Span>, n: nat)
  {
    && (spans == [] <==> n == 0)
    && (spans != [] ==> spans[0].start == 0 && spans[|spans| - 1].end == n)
    && (forall j :: 0 <= j < |spans| ==> spans[j].start < spans[j].end <= n)
    && (forall j :: 0 <= j < |spans| - 1 ==> spans[j].end == spans[j + 1].start)
    && (forall j, k :: 0 <= j < k < |spans| ==> spans[j].end <= spans[k].start)
  }

  /** Every slot of a span carries the span's category. */
  predicate Uniform(cats: seq<TokenCharacterType>, spans: seq<Span>)
  {
    forall j, i :: 0 <= j < |spans| && spans[j].start <= i < spans[j].end ==> i < |cats| && cats[i] == spans[j].kind
  }

  /** Neighbouring spans differ in category, so no span can be extended. */
  predicate Maximal(spans: seq<Span>)
  {
    forall j :: 0 <= j < |spans| - 1 ==> spans[j].kind != spans[j + 1].kind
  }

  /** `spans` is the decomposition of `cats` into maximal runs. */
  predicate IsRunDecomposition(cats: seq<TokenCharacterType>, spans: seq<Span>)
  {
    Tiles(spans, |cats|) && Uniform(cats, spans) && Maximal(spans)
  }

  /**
   * One slot more, of category `c`, ending at `n`: it extends the last run
   * when that run has the same category and opens a new run otherwise.
   */
  function Extend(front: seq<Span>, c: TokenCharacterType, n: nat): seq<Span>
    requires 1 <= n
  {
    if front != [] && front[|front| - 1].kind == c then
      front[..|front| - 1] + [Span(c, front[|front| - 1].start, n)]
    else
      front + [Span(c, n - 1, n)]
  }

  lemma ExtendTiles(front: seq<Span>, c: TokenCharacterType, n: nat)
    requires 1 <= n && Tiles(front, n - 1)
    ensures Tiles(Extend(front, c, n), n)
  {
    var r := Extend(front, c, n);
    if front != [] && front[|front| - 1].kind == c {
      var m := |front| - 1;
      assert forall j :: 0 <= j < m ==> r[j] == front[j];
      assert r[m] == Span(c, front[m].start, n);
    } else {
      assert forall j :: 0 <= j < |front| ==> r[j] == front[j];
      assert r[|front|] == Span(c, n - 1, n);
    }
  }

  lemma ExtendUniform(cats: seq<TokenCharacterType>, front: seq<Span>)
    requires 1 <= |cats| && Tiles(front, |cats| - 1) && Uniform(cats[..|cats| - 1], front)
    ensures Uniform(cats, Extend(front, cats[|cats| - 1], |cats|))
  {
    var n := |cats|;
    var r := Extend(front, cats[n - 1], n);
    forall j, i | 0 <= j < |r| && r[j].start <= i < r[j].end ensures i < n && cats[i] == r[j].kind {
      if i < n - 1 {
        assert cats[..n - 1][i] == cats[i];
      }
    }
  }

  lemma ExtendMaximal(front: seq<Span>, c: TokenCharacterType, n: nat)
    requires 1 <= n && Maximal(front)
    ensures Maximal(Extend(front, c, n))
  {
  }

  /** A decomposition of all but the last slot extends to one of every slot. */
  lemma ExtendDecomposes(cats: seq<TokenCharacterType>, front: seq<Span>)
    requires 1 <= |cats| && IsRunDecomposition(cats[..|cats| - 1], front)
    ensures IsRunDecomposition(cats, Extend(front, cats[|cats| - 1], |cats|))
  {
    ExtendTiles(front, cats[|cats| - 1], |cats|);
    ExtendUniform(cats, front);
    ExtendMaximal(front, cats[|cats| - 1], |cats|);
  }

  /**
   * The runs the build loop closes, computed from the left: each slot extends
   * the last run or opens a new one.
   */
  function Runs(cats: seq<TokenCharacterType>): (r: seq<Span>)
    ensures |r| <= |cats| && (r == [] <==> cats == [])
    decreases |cats|
  {
    if cats == [] then []
    else Extend(Runs(cats[..|cats| - 1]), cats[|cats| - 1], |cats|)
  }

  /** `Runs` cuts the categories into their maximal runs. */
  lemma {:induction false} RunsDecompose(cats: seq<TokenCharacterType>)
    ensures IsRunDecomposition(cats, Runs(cats))
    decreases |cats|
  {
    if cats != [] {
      RunsDecompose(cats[..|cats| - 1]);
      ExtendDecomposes(cats, Runs(cats[..|cats| - 1]));
    }
  }

  /** The inverse of `Extend`: forget the last slot. */
  function Shorten(spans: seq<Span>, n: nat): seq<Span>
    requires spans != [] && 1 <= n
  {
    var last := spans[|spans| - 1];
    if last.start < n - 1 then spans[..|spans| - 1] + [Span(last.kind, last.start, n - 1)]
    else spans[..|spans| - 1]
  }

  lemma ShortenTiles(spans: seq<Span>, n: nat)
    requires 1 <= n && Tiles(spans, n)
    ensures Tiles(Shorten(spans, n), n - 1)
  {
    var r := Shorten(spans, n);
    var m := |spans| - 1;
    var last := spans[m];
    assert last.start <= n - 1 < last.end;
    if last.start < n - 1 {
      assert forall j :: 0 <= j < m ==> r[j] == spans[j];
      assert r[m] == Span(last.kind, last.start, n - 1);
    } else {
      assert forall j :: 0 <= j < m ==> r[j] == spans[j];
      if r != [] {
        assert r[m - 1].end == last.start;
      }
    }
  }

  lemma ShortenUniform(cats: seq<TokenCharacterType>, spans: seq<Span>)
    requires 1 <= |cats| && Tiles(spans, |cats|) && Uniform(cats, spans)
    ensures Uniform(cats[..|cats| - 1], Shorten(spans, |cats|))
  {
    var n := |cats|;
    var r := Shorten(spans, n);
    var front := cats[..n - 1];
    ShortenTiles(spans, n);
    forall j, i | 0 <= j < |r| && r[j].start <= i < r[j].end ensures i < n - 1 && front[i] == r[j].kind {
      assert spans[j].start <= i < spans[j].end;
    }
  }

  lemma ShortenMaximal(spans: seq<Span>, n: nat)
    requires 1 <= n && spans != [] && Maximal(spans)
    ensures Maximal(Shorten(spans, n))
  {
    var r := Shorten(spans, n);
    assert forall j :: 0 <= j < |spans| - 1 ==> r[j] == spans[j];
  }

  lemma ShortenDecomposes(cats: seq<TokenCharacterType>, spans: seq<Span>)
    requires 1 <= |cats| && IsRunDecomposition(cats, spans)
    ensures IsRunDecomposition(cats[..|cats| - 1], Shorten(spans, |cats|))
  {
    ShortenTiles(spans, |cats|);
    ShortenUniform(cats, spans);
    ShortenMaximal(spans, |cats|);
  }

  lemma ExtendShorten(cats: seq<TokenCharacterType>, spans: seq<Span>)
    requires 1 <= |cats| && IsRunDecomposition(cats, spans)
    ensures Extend(Shorten(spans, |cats|), cats[|cats| - 1], |cats|) == spans
  {
    var n := |cats|;
    var last := spans[|spans| - 1];
    assert last.start <= n - 1 < last.end;
    var r := Shorten(spans, n);
    if last.start >= n - 1 && r != [] {
      assert r[|r| - 1] == spans[|spans| - 2];
    }
  }

  /** The maximal-run decomposition is unique, so `Runs` is the only one. */
  lemma {:induction false} RunsUnique(cats: seq<TokenCharacterType>, spans: seq<Span>)
    requires IsRunDecomposition(cats, spans)
    ensures spans == Runs(cats)
    decreases |cats|
  {
    if cats != [] {
      ShortenDecomposes(cats, spans);
      RunsUnique(cats[..|cats| - 1], Shorten(spans, |cats|));
      ExtendShorten(cats, spans);
    }
  }

  /**
   * The categories whose runs become a node of this kind. They are pairwise
   * disjoint, so a category determines the kind of its node.
   */
  function NodeCategories(n: Node): set<TokenCharacterType>
  {
    match n
    case TextNode(_) => {Character, UnKnown}
    case UrlNode(_) => {Url}
    case CashNode(_) => {Cash}
    case UserNode(_) => {UserName}
    case ChannelNode(_) => {Channel}
    case CustomUserNode(_) => {CustomUser}
    case EofNode => {Eof}
    case HashTagNode(_) => {HashTag}
  }

  /** Every category names exactly one kind of node. */
  lemma NodeCategoriesPartition(a: Node, b: Node, kind: TokenCharacterType)
    requires kind in NodeCategories(a) && kind in NodeCategories(b)
    ensures a.TextNode? == b.TextNode? && a.UrlNode? == b.UrlNode? && a.CashNode? == b.CashNode?
    ensures a.UserNode? == b.UserNode? && a.ChannelNode? == b.ChannelNode?
    ensures a.CustomUserNode? == b.CustomUserNode? && a.EofNode? == b.EofNode? && a.HashTagNode? == b.HashTagNode?
  {
  }

  /**
   * `buildNode`: the node for a run. Character and UnKnown runs become text;
   * an Eof run becomes the payload-free `EofNode`; every other category has a
   * node of its own that carries the run's text.
   */
  function BuildNode(kind: TokenCharacterType, text: string, start: nat, end: nat): (n: Node)
    requires start <= end && (kind != Eof ==> end <= |text|)
    ensures kind in NodeCategories(n)
    ensures kind != Eof ==> NodeText(n) == text[start..end]
  {
    match kind
    case Character => TextNode(text[start..end])
    case Url => UrlNode(text[start..end])
    case Cash => CashNode(text[start..end])
    case UserName => UserNode(text[start..end])
    case Channel => ChannelNode(text[start..end])
    case CustomUser => CustomUserNode(text[start..end])
    case Eof => EofNode
    case UnKnown => TextNode(text[start..end])
    case HashTag => HashTagNode(text[start..end])
  }

  /** Every span can be turned into a node: only an Eof span may reach past the text. */
  predicate Buildable(text: string, spans: seq<Span>)
  {
    forall j :: 0 <= j < |spans| ==> spans[j].start <= spans[j].end && (spans[j].kind != Eof ==> spans[j].end <= |text|)
  }

  /** The nodes of a sequence of spans, in order. */
  function NodesOf(text: string, spans: seq<Span>): seq<Node>
    requires Buildable(text, spans)
  {
    seq(|spans|, j requires 0 <= j < |spans| => BuildNode(spans[j].kind, text, spans[j].start, spans[j].end))
  }

  /** `s - x`: `s` without its first occurrence of `x`. */
  function RemoveFirst<T(==)>(s: seq<T>, x: T): seq<T>
    decreases |s|
  {
    if s == [] then []
    else if s[0] == x then s[1..]
    else [s[0]] + RemoveFirst(s[1..], x)
  }

  /** `nodes - x` is one element shorter exactly when `x` occurs. */
  lemma {:induction false} RemoveFirstLength<T>(s: seq<T>, x: T)
    ensures |RemoveFirst(s, x)| == if x in s then |s| - 1 else |s|
    decreases |s|
  {
    if s != [] {
      assert x in s <==> s[0] == x || x in s[1..];
      RemoveFirstLength(s[1..], x);
    }
  }

  /** Without `x`, `RemoveFirst` changes nothing. */
  lemma {:induction false} RemoveFirstAbsent<T>(s: seq<T>, x: T)
    requires x !in s
    ensures RemoveFirst(s, x) == s
    decreases |s|
  {
    if s != [] {
      assert s[0] != x && x !in s[1..];
      RemoveFirstAbsent(s[1..], x);
    }
  }

  /** `RemoveFirst` cuts out exactly the first `x`. */
  lemma {:induction false} RemoveFirstAt<T>(s: seq<T>, x: T, k: nat)
    requires k < |s| && s[k] == x && x !in s[..k]
    ensures RemoveFirst(s, x) == s[..k] + s[k + 1..]
    decreases k
  {
    if k > 0 {
      assert s[..k] == [s[0]] + s[1..][..k - 1];
      assert s[0] != x && x !in s[1..][..k - 1];
      assert RemoveFirst(s, x) == [s[0]] + RemoveFirst(s[1..], x);
      RemoveFirstAt(s[1..], x, k - 1);
      assert s[1..][k..] == s[k + 1..];
    } else {
      assert s[..0] + s[1..] == s[1..];
    }
  }

  /** An `x` appended to a sequence without one is the one `RemoveFirst` cuts out. */
  lemma RemoveFirstAtEnd<T>(s: seq<T>, x: T)
    requires x !in s
    ensures RemoveFirst(s + [x], x) == s
  {
    var t := s + [x];
    assert t[..|s|] == s && t[|s| + 1..] == [];
    RemoveFirstAt(t, x, |s|);
  }

  /** The content's categories end with the sentinel's Eof, so every run can be built. */
  lemma RunsBuildable(text: string, cats: seq<TokenCharacterType>)
    requires |cats| == |text| + 1 && cats[|text|] == Eof
    ensures Buildable(text, Runs(cats))
  {
    RunsDecompose(cats);
    var r := Runs(cats);
    forall j | 0 <= j < |r| ensures r[j].kind != Eof ==> r[j].end <= |text| {
      if r[j].end > |text| {
        assert r[j].start <= |text| < r[j].end;
      }
    }
  }

  /** What `build` returns for an array of categories whose sentinel slot is Eof. */
  function BuildSpec(text: string, cats: seq<TokenCharacterType>): seq<Node>
    requires |cats| == |text| + 1 && cats[|text|] == Eof
  {
    RunsBuildable(text, cats);
    RemoveFirst(NodesOf(text, Runs(cats)), EofNode)
  }

  /** One node per run, less the one EofNode dropped: the sentinel's run always gives one. */
  lemma BuildSpecLength(text: string, cats: seq<TokenCharacterType>)
    requires |cats| == |text| + 1 && cats[|text|] == Eof
    ensures |BuildSpec(text, cats)| == |Runs(cats)| - 1
  {
    RunsBuildable(text, cats);
    LastRunIsSentinel(cats);
    assert NodesOf(text, Runs(cats))[|Runs(cats)| - 1] == EofNode;
    RemoveFirstLength(NodesOf(text, Runs(cats)), EofNode);
  }

  /** The last run holds the last slot, so it has that slot's category. */
  lemma LastRunIsSentinel(cats: seq<TokenCharacterType>)
    requires cats != []
    ensures Runs(cats)[|Runs(cats)| - 1].kind == cats[|cats| - 1]
  {
    RunsDecompose(cats);
    var r := Runs(cats);
    assert r[|r| - 1].start <= |cats| - 1 < r[|r| - 1].end;
  }

  /** `Runs` of one more slot is `Extend` of the runs so far. */
  lemma RunsSnoc(cats: seq<TokenCharacterType>, i: nat)
    requires i < |cats|
    ensures Runs(cats[..i + 1]) == Extend(Runs(cats[..i]), cats[i], i + 1)
  {
    assert cats[..i + 1][..i] == cats[..i];
  }

  /** Closing the last span appends its node. */
  lemma NodesOfClose(text: string, r: seq<Span>)
    requires r != [] && Buildable(text, r[..|r| - 1])
    requires r[|r| - 1].start <= r[|r| - 1].end && (r[|r| - 1].kind != Eof ==> r[|r| - 1].end <= |text|)
    ensures Buildable(text, r)
    ensures NodesOf(text, r)
         == NodesOf(text, r[..|r| - 1]) + [BuildNode(r[|r| - 1].kind, text, r[|r| - 1].start, r[|r| - 1].end)]
  {
    assert forall j :: 0 <= j < |r| - 1 ==> r[..|r| - 1][j] == r[j];
  }

  /**
   * The state of the build loop after the first `|prefix|` slots: the runs of
   * the prefix are closed into `built` except the last, which is still open
   * as (`currentType`, `currentStart`).
   */
  ghost predicate Pending(text: string, prefix: seq<TokenCharacterType>, currentType: Option<TokenCharacterType>,
                          currentStart: nat, built: seq<Node>)
  {
    if prefix == [] then currentType == None && built == []
    else
      var r := Runs(prefix);
      && currentType == Some(r[|r| - 1].kind) && currentStart == r[|r| - 1].start
      && Buildable(text, r[..|r| - 1]) && built == NodesOf(text, r[..|r| - 1])
  }

  /** A slot of the category of the open run only lengthens it. */
  lemma PendingExtend(text: string, cats: seq<TokenCharacterType>, i: nat, currentStart: nat, built: seq<Node>)
    requires i < |cats| && 0 < i && Pending(text, cats[..i], Some(cats[i]), currentStart, built)
    ensures Pending(text, cats[..i + 1], Some(cats[i]), currentStart, built)
  {
    RunsSnoc(cats, i);
    RunsDecompose(cats[..i]);
    var r := Runs(cats[..i]);
    assert Extend(r, cats[i], i + 1)[..|r| - 1] == r[..|r| - 1];
  }

  /** A slot of another category closes the open run and opens a new one. */
  lemma PendingClose(text: string, cats: seq<TokenCharacterType>, i: nat, kind: TokenCharacterType,
                     currentStart: nat, built: seq<Node>)
    requires i < |cats| && i <= |text| && 0 < i && kind != cats[i] && Pending(text, cats[..i], Some(kind), currentStart, built)
    ensures currentStart <= i
    ensures Pending(text, cats[..i + 1], Some(cats[i]), i, built + [BuildNode(kind, text, currentStart, i)])
  {
    RunsSnoc(cats, i);
    RunsDecompose(cats[..i]);
    var r := Runs(cats[..i]);
    assert r[|r| - 1].end == i;
    NodesOfClose(text, r);
    assert Extend(r, cats[i], i + 1)[..|r|] == r;
  }

  /** After every slot, closing the open run gives the nodes of all runs. */
  lemma PendingDone(text: string, cats: seq<TokenCharacterType>, kind: TokenCharacterType, currentStart: nat, built: seq<Node>)
    requires |cats| == |text| + 1 && cats[|text|] == Eof && Pending(text, cats, Some(kind), currentStart, built)
    ensures currentStart <= |cats| && (kind != Eof ==> |cats| <= |text|)
    ensures Buildable(text, Runs(cats))
    ensures NodesOf(text, Runs(cats)) == built + [BuildNode(kind, text, currentStart, |cats|)]
  {
    RunsDecompose(cats);
    var r := Runs(cats);
    assert r[|r| - 1].start <= |text| < r[|r| - 1].end;
    NodesOfClose(text, r);
  }

  /**
   * `TreeBuilder.build`: one pass over the reader's slots that closes a run
   * whenever the category changes, then closes the last run and drops the
   * first EofNode.
   */
  method Build(reader: Reader, categories: seq<TokenCharacterType>) returns (nodes: seq<Node>)
    requires |categories| >= reader.Length() && categories[reader.Length() - 1] == Eof
    ensures nodes == BuildSpec(reader.text, categories[..reader.Length()])
  {
    var text := reader.text;
    ghost var cats := categories[..reader.Length()];
    var built: seq<Node> := [];
    var currentType: Option<TokenCharacterType> := None;
    var currentStart := 0;
    for i := 0 to reader.Length()
      invariant Pending(text, cats[..i], currentType, currentStart, built)
    {
      var kind := categories[i];
      assert kind == cats[i];
      if currentType == None {
        assert cats[..1] == [kind];
        currentType := Some(kind);
        currentStart := i;
      } else if currentType.value != kind {
        PendingClose(text, cats, i, currentType.value, currentStart, built);
        built := built + [BuildNode(currentType.value, text, currentStart, i)];
        currentType := Some(kind);
        currentStart := i;
      } else {
        PendingExtend(text, cats, i, currentStart, built);
      }
    }
    assert cats[..reader.Length()] == cats;
    if currentType != None {
      PendingDone(text, cats, currentType.value, currentStart, built);
      built := built + [BuildNode(currentType.value, text, currentStart, reader.Length())];
    }
    nodes := RemoveFirst(built, EofNode);
  }

  /** The shape the tokenizer guarantees: only the sentinel slot is Eof. */
  predicate OnlySentinelIsEof(text: string, cats: seq<TokenCharacterType>)
  {
    |cats| == |text| + 1 && cats[|text|] == Eof && forall i :: 0 <= i < |text| ==> cats[i] != Eof
  }

  /** Without its last span, a tiling covers up to where that span starts. */
  lemma TilesFront(spans: seq<Span>, m: nat)
    requires Tiles(spans, m) && spans != []
    ensures Tiles(spans[..|spans| - 1], spans[|spans| - 1].start)
  {
    var front := spans[..|spans| - 1];
    if front != [] {
      assert front[|front| - 1].end == spans[|spans| - 1].start;
    }
  }

  /** The runs before the last one. */
  function FrontRuns(cats: seq<TokenCharacterType>): seq<Span>
  {
    var r := Runs(cats);
    if r == [] then [] else r[..|r| - 1]
  }

  /**
   * When only the sentinel is Eof, the last run is the sentinel alone and the
   * runs before it tile the text without Eof.
   */
  lemma FrontRunsTileText(text: string, cats: seq<TokenCharacterType>)
    requires OnlySentinelIsEof(text, cats)
    ensures Runs(cats)[|Runs(cats)| - 1] == Span(Eof, |text|, |text| + 1)
    ensures var front := FrontRuns(cats);
      && Tiles(front, |text|) && |front| <= |text|
      && forall j :: 0 <= j < |front| ==> front[j].kind != Eof && cats[front[j].start] == front[j].kind
  {
    RunsDecompose(cats);
    var r := Runs(cats);
    var last := r[|r| - 1];
    var front := FrontRuns(cats);
    assert last.start <= |text| < last.end;
    assert cats[last.start] == last.kind;
    assert cats[|text|] == last.kind;
    forall j | 0 <= j < |front| ensures front[j].kind != Eof && cats[front[j].start] == front[j].kind {
      assert front[j] == r[j];
      assert r[j].end <= last.start;
      assert cats[r[j].start] == r[j].kind;
    }
    TilesFront(r, |cats|);
  }

  /** When only the sentinel is Eof, `build` gives exactly the nodes of the runs before the sentinel's. */
  lemma BuildSpecIsFront(text: string, cats: seq<TokenCharacterType>)
    requires OnlySentinelIsEof(text, cats)
    ensures Buildable(text, FrontRuns(cats)) && BuildSpec(text, cats) == NodesOf(text, FrontRuns(cats))
  {
    FrontRunsTileText(text, cats);
    var r := Runs(cats);
    var front := FrontRuns(cats);
    RunsBuildable(text, cats);
    NodesOfClose(text, r);
    NodesOfHasNoEof(text, front);
    RemoveFirstAtEnd(NodesOf(text, front), EofNode);
  }

  /** Both of the above, with the front runs as a result. */
  lemma BuildSpecFront(text: string, cats: seq<TokenCharacterType>) returns (front: seq<Span>)
    requires OnlySentinelIsEof(text, cats)
    ensures Tiles(front, |text|) && |front| <= |text|
    ensures forall j :: 0 <= j < |front| ==> front[j].kind != Eof && cats[front[j].start] == front[j].kind
    ensures Buildable(text, front) && BuildSpec(text, cats) == NodesOf(text, front)
  {
    FrontRunsTileText(text, cats);
    BuildSpecIsFront(text, cats);
    front := FrontRuns(cats);
  }

  /** Spans that are not Eof give no EofNode. */
  lemma NodesOfHasNoEof(text: string, spans: seq<Span>)
    requires Buildable(text, spans) && forall j :: 0 <= j < |spans| ==> spans[j].kind != Eof
    ensures EofNode !in NodesOf(text, spans)
  {
    var nodes := NodesOf(text, spans);
    forall j | 0 <= j < |nodes| ensures nodes[j] != EofNode {
      assert spans[j].kind in NodeCategories(nodes[j]);
    }
  }

  /** Nodes built from spans that tile `[0, m)` without Eof spell out the first `m` characters. */
  lemma {:induction false} FlattenTiles(text: string, spans: seq<Span>, m: nat)
    requires Tiles(spans, m) && m <= |text|
    requires forall j :: 0 <= j < |spans| ==> spans[j].kind != Eof
    ensures Buildable(text, spans)
    ensures Flatten(NodesOf(text, spans)) == text[..m]
    decreases |spans|
  {
    if spans != [] {
      var front := spans[..|spans| - 1];
      var last := spans[|spans| - 1];
      var node := BuildNode(last.kind, text, last.start, m);
      TilesFront(spans, m);
      assert forall j :: 0 <= j < |front| ==> front[j] == spans[j];
      FlattenTiles(text, front, last.start);
      NodesOfClose(text, spans);
      FlattenAppend(NodesOf(text, front), [node]);
      assert Flatten([node]) == NodeText(node) + Flatten([]);
      assert text[..m] == text[..last.start] + text[last.start..m];
    }
  }

  /** Building is lossless when only the sentinel is Eof: the nodes spell out the text. */
  lemma BuildLossless(text: string, cats: seq<TokenCharacterType>)
    requires OnlySentinelIsEof(text, cats)
    ensures Flatten(BuildSpec(text, cats)) == text
  {
    var front := BuildSpecFront(text, cats);
    FlattenTiles(text, front, |text|);
    assert text[..|text|] == text;
  }

  /** The single EofNode, the sentinel's, is the one `build` removes. */
  lemma BuildHasNoEofNode(text: string, cats: seq<TokenCharacterType>)
    requires OnlySentinelIsEof(text, cats)
    ensures EofNode !in BuildSpec(text, cats)
  {
    var front := BuildSpecFront(text, cats);
    var nodes := NodesOf(text, front);
    assert forall j :: 0 <= j < |nodes| ==> nodes[j] != EofNode;
  }

  /** Every node covers at least one character, so there are at most as many nodes as characters. */
  lemma BuildNodesAreNonEmpty(text: string, cats: seq<TokenCharacterType>)
    requires OnlySentinelIsEof(text, cats)
    ensures forall n :: n in BuildSpec(text, cats) ==> NodeText(n) != ""
    ensures |BuildSpec(text, cats)| <= |text|
  {
    var front := BuildSpecFront(text, cats);
    SpanNodesAreNonEmpty(text, front);
  }

  /** Non-empty spans that are not Eof give nodes with non-empty text. */
  lemma SpanNodesAreNonEmpty(text: string, spans: seq<Span>)
    requires forall j :: 0 <= j < |spans| ==> spans[j].start < spans[j].end <= |text| && spans[j].kind != Eof
    ensures Buildable(text, spans)
    ensures forall n :: n in NodesOf(text, spans) ==> NodeText(n) != ""
  {
    var nodes := NodesOf(text, spans);
    forall j | 0 <= j < |spans| ensures NodeText(nodes[j]) != "" {
      assert |text[spans[j].start..spans[j].end]| > 0;
    }
  }

  /** An empty post has no nodes. */
  lemma BuildEmpty()
    ensures BuildSpec("", [Eof]) == []
  {
    BuildNodesAreNonEmpty("", [Eof]);
  }

  /** A span's node is of the kind of the category at the span's start. */
  lemma SpanNodeCategories(text: string, cats: seq<TokenCharacterType>, spans: seq<Span>)
    requires |text| < |cats|
    requires forall j :: 0 <= j < |spans| ==> spans[j].start < spans[j].end <= |text| && cats[spans[j].start] == spans[j].kind
    ensures Buildable(text, spans)
    ensures forall n :: n in NodesOf(text, spans) ==> exists i :: 0 <= i < |text| && cats[i] in NodeCategories(n)
  {
    var nodes := NodesOf(text, spans);
    forall n | n in nodes ensures exists i :: 0 <= i < |text| && cats[i] in NodeCategories(n) {
      var j :| 0 <= j < |spans| && nodes[j] == n;
      assert cats[spans[j].start] in NodeCategories(nodes[j]);
    }
  }

  /** Every node is of the kind of some character's category. */
  lemma BuildNodesHaveSlotCategories(text: string, cats: seq<TokenCharacterType>)
    requires OnlySentinelIsEof(text, cats)
    ensures forall n :: n in BuildSpec(text, cats) ==> exists i :: 0 <= i < |text| && cats[i] in NodeCategories(n)
  {
    var front := BuildSpecFront(text, cats);
    SpanNodeCategories(text, cats, front);
  }

  /**
   * UnKnown and Character both become text: wherever a Character run and an
   * UnKnown run are neighbours, in either order, they stay two distinct runs
   * and give two neighbouring text nodes, each holding its own run's text.
   */
  lemma UnKnownBesideCharacter(text: string, cats: seq<TokenCharacterType>, j: nat)
    requires OnlySentinelIsEof(text, cats)
    requires j + 2 < |Runs(cats)|
    requires Runs(cats)[j].kind in {Character, UnKnown} && Runs(cats)[j + 1].kind in {Character, UnKnown}
    ensures var r := Runs(cats);
      && r[j].kind != r[j + 1].kind && r[j].start < r[j].end == r[j + 1].start < r[j + 1].end <= |text|
      && j + 1 < |BuildSpec(text, cats)|
      && BuildSpec(text, cats)[j] == TextNode(text[r[j].start..r[j].end])
      && BuildSpec(text, cats)[j + 1] == TextNode(text[r[j + 1].start..r[j + 1].end])
  {
    NeighbouringRuns(cats, j);
    NodeOfFrontRun(text, cats, j);
    NodeOfFrontRun(text, cats, j + 1);
  }

  /** Neighbouring runs touch and differ in category. */
  lemma NeighbouringRuns(cats: seq<TokenCharacterType>, j: nat)
    requires j + 1 < |Runs(cats)|
    ensures var r := Runs(cats);
      r[j].kind != r[j + 1].kind && r[j].start < r[j].end == r[j + 1].start < r[j + 1].end
  {
    RunsDecompose(cats);
  }

  /** Every run but the sentinel's gives the node in the same place of `build`'s result. */
  lemma NodeOfFrontRun(text: string, cats: seq<TokenCharacterType>, j: nat)
    requires OnlySentinelIsEof(text, cats)
    requires j + 1 < |Runs(cats)|
    ensures var r := Runs(cats);
      && r[j].start <= r[j].end <= |text| && j < |BuildSpec(text, cats)|
      && BuildSpec(text, cats)[j] == BuildNode(r[j].kind, text, r[j].start, r[j].end)
  {
    FrontRunsTileText(text, cats);
    BuildSpecIsFront(text, cats);
    assert FrontRuns(cats)[j] == Runs(cats)[j];
  }

  /** The smallest instance: one Character slot, then one UnKnown slot. */
  lemma CharacterThenUnKnown(text: string, cats: seq<TokenCharacterType>)
    requires |text| == 2 && cats == [Character, UnKnown, Eof]
    ensures BuildSpec(text, cats) == [TextNode(text[..1]), TextNode(text[1..])]
  {
    UnKnownBesideCharacterRuns(cats);
    var r := Runs(cats);
    var front := [TextNode(text[..1]), TextNode(text[1..])];
    assert text[0..1] == text[..1] && text[1..2] == text[1..];
    assert NodesOf(text, r) == front + [EofNode];
    RemoveFirstAtEnd(front, EofNode);
  }

  /** A Character slot and an UnKnown slot are two runs. */
  lemma UnKnownBesideCharacterRuns(cats: seq<TokenCharacterType>)
    requires cats == [Character, UnKnown, Eof]
    ensures Runs(cats) == [Span(Character, 0, 1), Span(UnKnown, 1, 2), Span(Eof, 2, 3)]
  {
    var r := [Span(Character, 0, 1), Span(UnKnown, 1, 2), Span(Eof, 2, 3)];
    assert Tiles(r, 3);
    assert Uniform(cats, r) by {
      forall j, i | 0 <= j < 3 && r[j].start <= i < r[j].end ensures i < 3 && cats[i] == r[j].kind {
        assert i == j;
      }
    }
    RunsUnique(cats, r);
  }
}
