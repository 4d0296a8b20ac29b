/** The document model of the editor: pages of blocks, the four block edits,
    and the motor list that the summary table is built from. Block ids are
    given by the caller, and the motor catalog lookup is a parameter. */
module App {
  import opened Wrappers
  import opened Calculations

  datatype BlockType = Text | Comparison | SummaryTable

  datatype Align = Left | Center | Right | Justify

  /** The installed motor of a comparison, as typed by the user. */
  datatype Before = Before(cv: real, cable: string, breaker: string, starter: string)

  /** The projected motor of a comparison, identified by its cv rating. */
  datatype After = After(cv: real)

  /** A block's value: text for text and summary blocks, a before/after pair for comparisons. */
  datatype BlockValue = TextValue(text: string) | ComparisonValue(before: Before, after: After)

  datatype Block = Block(
    id: string,
    kind: BlockType,
    value: BlockValue,
    fontSize: int,
    bold: Option<bool>,
    italic: Option<bool>,
    align: Option<Align>)

  datatype Page = Page(id: string, blocks: seq<Block>)

  datatype Project = Project(title: string, pages: seq<Page>)

  datatype Direction = Up | Down

  /** A partial block: each present field replaces the block's own. An optional
      field of the block may be replaced by `None`, as an explicit `undefined` does. */
  datatype BlockUpdate = BlockUpdate(
    id: Option<string>,
    kind: Option<BlockType>,
    value: Option<BlockValue>,
    fontSize: Option<int>,
    bold: Option<Option<bool>>,
    italic: Option<Option<bool>>,
    align: Option<Option<Align>>)

  /** The motor catalog lookup by cv rating. */
  type Catalog = real -> Option<Motor>

  // ---------------------------------------------------------------------------
  // Adding a block

  /** The block a toolbar button creates. */
  function NewBlock(id: string, kind: BlockType): (b: Block)
    ensures b.id == id && b.kind == kind
    ensures b.value.ComparisonValue? <==> kind == Comparison
    ensures b.value.ComparisonValue? ==> b.value.before.cv == 1.0 && b.value.after.cv == 1.0
    ensures b.value.TextValue? ==> b.value.text == ""
    ensures b.fontSize == 11 && b.bold.None? && b.italic.None? && b.align == Some(Left)
  {
    Block(
      id,
      kind,
      if kind == Comparison then ComparisonValue(Before(1.0, "2.5", "DISJ 10A", "DIRETA"), After(1.0))
      else TextValue(""),
      11,
      None,
      None,
      Some(Left))
  }

  /** A page id argument that JavaScript treats as true: present and non-empty. */
  predicate Truthy(target: Option<string>)
  {
    target.Some? && target.value != ""
  }

  /** The page a new block goes to: the one named, else the last page. */
  function TargetPageId(pages: seq<Page>, target: Option<string>): (id: string)
    requires Truthy(target) || |pages| > 0
    ensures Truthy(target) ==> id == target.value
    ensures !Truthy(target) ==> id == pages[|pages| - 1].id
  {
    if Truthy(target) then target.value else pages[|pages| - 1].id
  }

  /** Appends `block` to every page whose id is `pageId`. */
  function AppendBlock(pages: seq<Page>, pageId: string, block: Block): (r: seq<Page>)
    ensures |r| == |pages|
    ensures forall i :: 0 <= i < |pages| ==> r[i].id == pages[i].id
    ensures forall i :: 0 <= i < |pages| && pages[i].id == pageId ==>
      r[i].blocks == pages[i].blocks + [block]
    ensures forall i :: 0 <= i < |pages| && pages[i].id != pageId ==> r[i] == pages[i]
  {
    seq(|pages|, i requires 0 <= i < |pages| =>
      if pages[i].id == pageId then pages[i].(blocks := pages[i].blocks + [block]) else pages[i])
  }

  /** Page ids are pairwise distinct. */
  ghost predicate DistinctPageIds(pages: seq<Page>)
  {
    forall i, j :: 0 <= i < j < |pages| ==> pages[i].id != pages[j].id
  }

  /** With no page named and distinct page ids, exactly the last page grows, by the new
      block at its end. */
  lemma AddGoesToLastPage(pages: seq<Page>, block: Block)
    requires |pages| > 0 && DistinctPageIds(pages)
    ensures var r := AppendBlock(pages, TargetPageId(pages, None), block);
      |r| == |pages|
      && r[|r| - 1] == pages[|pages| - 1].(blocks := pages[|pages| - 1].blocks + [block])
      && r[..|r| - 1] == pages[..|pages| - 1]
  {
    var r := AppendBlock(pages, TargetPageId(pages, None), block);
    assert forall i :: 0 <= i < |pages| - 1 ==> r[i] == pages[i];
  }

  // ---------------------------------------------------------------------------
  // Updating a block

  function Pick<T>(o: Option<T>, default: T): T
  {
    if o.Some? then o.value else default
  }

  /** The object spread `{ ...b, ...updates }`. */
  function Merge(b: Block, u: BlockUpdate): (r: Block)
    ensures r.id == (if u.id.Some? then u.id.value else b.id)
    ensures r.kind == (if u.kind.Some? then u.kind.value else b.kind)
    ensures r.value == (if u.value.Some? then u.value.value else b.value)
    ensures r.fontSize == (if u.fontSize.Some? then u.fontSize.value else b.fontSize)
    ensures r.bold == (if u.bold.Some? then u.bold.value else b.bold)
    ensures r.italic == (if u.italic.Some? then u.italic.value else b.italic)
    ensures r.align == (if u.align.Some? then u.align.value else b.align)
  {
    Block(
      Pick(u.id, b.id),
      Pick(u.kind, b.kind),
      Pick(u.value, b.value),
      Pick(u.fontSize, b.fontSize),
      Pick(u.bold, b.bold),
      Pick(u.italic, b.italic),
      Pick(u.align, b.align))
  }

  /** Merges `u` into the blocks of one page whose id is `blockId`. */
  function UpdateIn(blocks: seq<Block>, blockId: string, u: BlockUpdate): (r: seq<Block>)
    ensures |r| == |blocks|
    ensures forall j :: 0 <= j < |blocks| && blocks[j].id != blockId ==> r[j] == blocks[j]
  {
    seq(|blocks|, j requires 0 <= j < |blocks| =>
      if blocks[j].id == blockId then Merge(blocks[j], u) else blocks[j])
  }

  /** `updateBlock`: merges `u` into every block with id `blockId`, on every page. */
  function UpdateBlocks(pages: seq<Page>, blockId: string, u: BlockUpdate): (r: seq<Page>)
    ensures |r| == |pages|
    ensures forall i :: 0 <= i < |pages| ==>
      r[i].id == pages[i].id && |r[i].blocks| == |pages[i].blocks|
  {
    seq(|pages|, i requires 0 <= i < |pages| => pages[i].(blocks := UpdateIn(pages[i].blocks, blockId, u)))
  }

  /** Exactly the blocks with the id are merged; everything else is unchanged. */
  lemma UpdateTouchesOnlyMatches(pages: seq<Page>, blockId: string, u: BlockUpdate, i: nat, j: nat)
    requires i < |pages| && j < |pages[i].blocks|
    ensures var b := pages[i].blocks[j];
      UpdateBlocks(pages, blockId, u)[i].blocks[j] == if b.id == blockId then Merge(b, u) else b
  {
  }

  /** Applying the same update twice is the same as applying it once, even when the
      update renames the block. */
  lemma UpdateIdempotent(pages: seq<Page>, blockId: string, u: BlockUpdate)
    ensures UpdateBlocks(UpdateBlocks(pages, blockId, u), blockId, u) == UpdateBlocks(pages, blockId, u)
  {
    var once := UpdateBlocks(pages, blockId, u);
    var twice := UpdateBlocks(once, blockId, u);
    forall i | 0 <= i < |pages| ensures twice[i] == once[i] {
      assert twice[i].blocks == once[i].blocks;
    }
  }

  /** An id that no block has leaves the document unchanged. */
  lemma UpdateAbsentIsIdentity(pages: seq<Page>, blockId: string, u: BlockUpdate)
    requires forall b :: b in AllBlocks(pages) ==> b.id != blockId
    ensures UpdateBlocks(pages, blockId, u) == pages
  {
    var r := UpdateBlocks(pages, blockId, u);
    forall i | 0 <= i < |pages| ensures r[i] == pages[i] {
      forall j | 0 <= j < |pages[i].blocks| ensures pages[i].blocks[j].id != blockId {
        BlockOfPageInAll(pages, i, j);
      }
      assert r[i].blocks == pages[i].blocks;
    }
  }

  // ---------------------------------------------------------------------------
  // Removing a block

  /** `blocks.filter(b => b.id !== blockId)`. */
  function Without(blocks: seq<Block>, blockId: string): (r: seq<Block>)
    ensures |r| <= |blocks|
    ensures forall b :: b in r <==> b in blocks && b.id != blockId
  {
    if blocks == [] then []
    else if blocks[0].id == blockId then Without(blocks[1..], blockId)
    else [blocks[0]] + Without(blocks[1..], blockId)
  }

  /** Filtering keeps relative order: it distributes over concatenation. */
  lemma {:induction false} WithoutAppend(a: seq<Block>, b: seq<Block>, blockId: string)
    ensures Without(a + b, blockId) == Without(a, blockId) + Without(b, blockId)
  {
    if a == [] {
      assert a + b == b;
    } else {
      assert (a + b)[0] == a[0] && (a + b)[1..] == a[1..] + b;
      WithoutAppend(a[1..], b, blockId);
    }
  }

  /** Removing an id that no block has changes nothing. */
  lemma {:induction false} WithoutAbsent(blocks: seq<Block>, blockId: string)
    requires forall b :: b in blocks ==> b.id != blockId
    ensures Without(blocks, blockId) == blocks
  {
    if blocks != [] {
      WithoutAbsent(blocks[1..], blockId);
      assert blocks == [blocks[0]] + blocks[1..];
    }
  }

  /** `removeBlock`: drops every block with id `blockId` from every page. */
  function RemoveBlocks(pages: seq<Page>, blockId: string): (r: seq<Page>)
    ensures |r| == |pages|
    ensures forall i :: 0 <= i < |pages| ==> r[i].id == pages[i].id
  {
    seq(|pages|, i requires 0 <= i < |pages| => pages[i].(blocks := Without(pages[i].blocks, blockId)))
  }

  /** No block with the id remains, every other block stays on its page, and removing
      again changes nothing. */
  lemma RemoveSpec(pages: seq<Page>, blockId: string)
    ensures forall i, b :: 0 <= i < |pages| ==>
      (b in RemoveBlocks(pages, blockId)[i].blocks <==> b in pages[i].blocks && b.id != blockId)
    ensures RemoveBlocks(RemoveBlocks(pages, blockId), blockId) == RemoveBlocks(pages, blockId)
  {
    var r := RemoveBlocks(pages, blockId);
    forall i | 0 <= i < |pages| ensures RemoveBlocks(r, blockId)[i] == r[i] {
      WithoutAbsent(r[i].blocks, blockId);
    }
  }

  /** Removing the block just added, under an id no block had, restores the document. */
  lemma RemoveUndoesAdd(pages: seq<Page>, pageId: string, block: Block)
    requires forall b :: b in AllBlocks(pages) ==> b.id != block.id
    ensures RemoveBlocks(AppendBlock(pages, pageId, block), block.id) == pages
  {
    var added := AppendBlock(pages, pageId, block);
    var r := RemoveBlocks(added, block.id);
    forall i | 0 <= i < |pages| ensures r[i] == pages[i] {
      forall b | b in pages[i].blocks ensures b.id != block.id {
        var j :| 0 <= j < |pages[i].blocks| && pages[i].blocks[j] == b;
        BlockOfPageInAll(pages, i, j);
      }
      WithoutAbsent(pages[i].blocks, block.id);
      if pages[i].id == pageId {
        WithoutAppend(pages[i].blocks, [block], block.id);
        assert Without([block], block.id) == [];
      }
    }
  }

  // ---------------------------------------------------------------------------
  // Moving a block

  function HasId(blockId: string): Block -> bool
  {
    (b: Block) => b.id == blockId
  }

  /** `page.blocks.findIndex(b => b.id === blockId)`, with `None` for -1. */
  function IndexOf(blocks: seq<Block>, blockId: string): (r: Option<nat>)
    ensures r.Some? ==> r.value < |blocks| && blocks[r.value].id == blockId
    ensures r.Some? ==> forall j :: 0 <= j < r.value ==> blocks[j].id != blockId
    ensures r.None? ==> forall j :: 0 <= j < |blocks| ==> blocks[j].id != blockId
  {
    Find(blocks, HasId(blockId), 0)
  }

  /** Swaps the blocks at positions `i` and `k`. */
  function Swap(blocks: seq<Block>, i: nat, k: nat): (r: seq<Block>)
    requires i < |blocks| && k < |blocks|
    ensures |r| == |blocks| && multiset(r) == multiset(blocks)
  {
    blocks[i := blocks[k]][k := blocks[i]]
  }

  /** One page of `moveBlock`: the first block with the id trades places with its
      neighbour above or below, unless it is absent or already at that end. */
  function MovePage(page: Page, blockId: string, dir: Direction): (r: Page)
    ensures r.id == page.id
    ensures |r.blocks| == |page.blocks| && multiset(r.blocks) == multiset(page.blocks)
  {
    var found := IndexOf(page.blocks, blockId);
    if found.None? then page
    else
      var index := found.value;
      match dir
      case Up => if index == 0 then page else page.(blocks := Swap(page.blocks, index, index - 1))
      case Down =>
        if index == |page.blocks| - 1 then page else page.(blocks := Swap(page.blocks, index, index + 1))
  }

  /** `moveBlock`: moves the block on every page. */
  function MoveBlocks(pages: seq<Page>, blockId: string, dir: Direction): (r: seq<Page>)
    ensures |r| == |pages|
    ensures forall i :: 0 <= i < |pages| ==>
      r[i].id == pages[i].id && multiset(r[i].blocks) == multiset(pages[i].blocks)
  {
    seq(|pages|, i requires 0 <= i < |pages| => MovePage(pages[i], blockId, dir))
  }

  /** A move is a no-op exactly when the id is absent or its first block is already at the
      end it moves towards; otherwise it swaps with the neighbour and nothing else moves. */
  lemma MoveCases(page: Page, blockId: string, dir: Direction)
    ensures var idx := IndexOf(page.blocks, blockId);
      MovePage(page, blockId, dir) == page <==>
        (idx.None?
         || (dir == Up && idx.value == 0)
         || (dir == Down && idx.value == |page.blocks| - 1)
         || (var t := if dir == Up then idx.value - 1 else idx.value + 1;
             0 <= t < |page.blocks| && page.blocks[t] == page.blocks[idx.value]))
  {
  }

  /** Swapping the same two positions twice restores the blocks. */
  lemma SwapTwice(blocks: seq<Block>, i: nat, k: nat)
    requires i < |blocks| && k < |blocks|
    ensures Swap(Swap(blocks, i, k), k, i) == blocks
  {
    var once := Swap(blocks, i, k);
    var twice := Swap(once, k, i);
    forall j | 0 <= j < |blocks| ensures twice[j] == blocks[j] {
      if j != i && j != k {
        assert once[j] == blocks[j];
      }
    }
  }

  /** The first block with the id is at `k` when it is there and no earlier block has it. */
  lemma IndexOfIs(blocks: seq<Block>, blockId: string, k: nat)
    requires k < |blocks| && blocks[k].id == blockId
    requires forall j :: 0 <= j < k ==> blocks[j].id != blockId
    ensures IndexOf(blocks, blockId) == Some(k)
  {
    assert blocks[k].id == blockId;
  }

  /** A block that is not at the top trades places with the one above it. */
  lemma MoveUpSwaps(page: Page, blockId: string, i: nat)
    requires IndexOf(page.blocks, blockId) == Some(i) && i > 0
    ensures MovePage(page, blockId, Up) == page.(blocks := Swap(page.blocks, i, i - 1))
  {
  }

  /** A block that is not at the bottom trades places with the one below it. */
  lemma MoveDownSwaps(page: Page, blockId: string, i: nat)
    requires IndexOf(page.blocks, blockId) == Some(i) && i + 1 < |page.blocks|
    ensures MovePage(page, blockId, Down) == page.(blocks := Swap(page.blocks, i, i + 1))
  {
  }

  /** Moving up then down restores the page, unless the block started at the top. */
  lemma UpThenDown(page: Page, blockId: string)
    requires IndexOf(page.blocks, blockId) != Some(0)
    ensures MovePage(MovePage(page, blockId, Up), blockId, Down) == page
  {
    var idx := IndexOf(page.blocks, blockId);
    if idx.Some? {
      var i := idx.value;
      MoveUpSwaps(page, blockId, i);
      var up := page.(blocks := Swap(page.blocks, i, i - 1));
      assert forall j :: 0 <= j < i - 1 ==> up.blocks[j] == page.blocks[j];
      IndexOfIs(up.blocks, blockId, i - 1);
      MoveDownSwaps(up, blockId, i - 1);
      SwapTwice(page.blocks, i, i - 1);
    }
  }

  /** Moving down then up restores the page when the block is not at the bottom and the
      block below it has a different id. */
  lemma DownThenUp(page: Page, blockId: string)
    requires IndexOf(page.blocks, blockId).Some?
    requires IndexOf(page.blocks, blockId).value + 1 < |page.blocks|
    requires page.blocks[IndexOf(page.blocks, blockId).value + 1].id != blockId
    ensures MovePage(MovePage(page, blockId, Down), blockId, Up) == page
  {
    var i := IndexOf(page.blocks, blockId).value;
    MoveDownSwaps(page, blockId, i);
    var down := page.(blocks := Swap(page.blocks, i, i + 1));
    assert forall j :: 0 <= j <= i ==> down.blocks[j].id != blockId;
    IndexOfIs(down.blocks, blockId, i + 1);
    MoveUpSwaps(down, blockId, i + 1);
    SwapTwice(page.blocks, i, i + 1);
  }

  /** With duplicate ids, moving down then up need not restore the page. */
  lemma DownThenUpWithDuplicateIds()
    ensures var a := NewBlock("a", Text);
      var b := NewBlock("a", Comparison);
      var p := Page("p", [a, b]);
      MovePage(MovePage(p, "a", Down), "a", Up) != p
  {
    var a := NewBlock("a", Text);
    var b := NewBlock("a", Comparison);
    var p := Page("p", [a, b]);
    assert MovePage(p, "a", Down).blocks == [b, a];
    assert MovePage(Page("p", [b, a]), "a", Up) == Page("p", [b, a]);
  }

  // ---------------------------------------------------------------------------
  // The motor list

  /** `pages.flatMap(p => p.blocks)`. */
  function AllBlocks(pages: seq<Page>): seq<Block>
  {
    if pages == [] then [] else pages[0].blocks + AllBlocks(pages[1..])
  }

  lemma {:induction false} AllBlocksAppend(a: seq<Page>, b: seq<Page>)
    ensures AllBlocks(a + b) == AllBlocks(a) + AllBlocks(b)
  {
    if a == [] {
      assert a + b == b;
    } else {
      assert (a + b)[0] == a[0] && (a + b)[1..] == a[1..] + b;
      AllBlocksAppend(a[1..], b);
    }
  }

  /** Every block of every page is among `AllBlocks`. */
  lemma {:induction false} BlockOfPageInAll(pages: seq<Page>, i: nat, j: nat)
    requires i < |pages| && j < |pages[i].blocks|
    ensures pages[i].blocks[j] in AllBlocks(pages)
  {
    if i > 0 {
      BlockOfPageInAll(pages[1..], i - 1, j);
    }
  }

  /** `.filter(b => b.type === 'comparison')`. */
  function Comparisons(blocks: seq<Block>): (r: seq<Block>)
    ensures |r| <= |blocks|
    ensures forall b :: b in r <==> b in blocks && b.kind == Comparison
  {
    if blocks == [] then []
    else if blocks[0].kind == Comparison then [blocks[0]] + Comparisons(blocks[1..])
    else Comparisons(blocks[1..])
  }

  /** The cast `b.value as ComparisonData` reads `after` only on comparison values; a
      comparison block holding text would throw. */
  predicate CastsSucceed(blocks: seq<Block>)
  {
    forall b :: b in blocks && b.kind == Comparison ==> b.value.ComparisonValue?
  }

  /** `.map(b => getMotorByCv(b.value.after.cv))`. */
  function LookUp(blocks: seq<Block>, catalog: Catalog): (r: seq<Option<Motor>>)
    requires forall b :: b in blocks ==> b.value.ComparisonValue?
    ensures |r| == |blocks|
    ensures forall i :: 0 <= i < |blocks| ==> r[i] == catalog(blocks[i].value.after.cv)
  {
    seq(|blocks|, i requires 0 <= i < |blocks| => catalog(blocks[i].value.after.cv))
  }

  /** `.filter(m => !!m)`. */
  function Present(ms: seq<Option<Motor>>): (r: seq<Motor>)
    ensures |r| <= |ms|
    ensures forall m :: m in r <==> Some(m) in ms
  {
    if ms == [] then []
    else if ms[0].Some? then [ms[0].value] + Present(ms[1..])
    else Present(ms[1..])
  }

  /** The motor pipeline over a flat list of blocks: keep the comparisons, look up each
      projected rating, drop the misses. */
  function BlockMotors(blocks: seq<Block>, catalog: Catalog): (r: seq<Motor>)
    requires CastsSucceed(blocks)
    ensures |r| <= |Comparisons(blocks)|
    ensures forall m :: m in r <==>
      exists b :: b in blocks && b.kind == Comparison && catalog(b.value.after.cv) == Some(m)
  {
    var cs := Comparisons(blocks);
    var r := Present(LookUp(cs, catalog));
    assert forall m :: m in r ==> exists b :: b in cs && catalog(b.value.after.cv) == Some(m) by {
      forall m | m in r ensures exists b :: b in cs && catalog(b.value.after.cv) == Some(m) {
        var k :| 0 <= k < |cs| && LookUp(cs, catalog)[k] == Some(m);
        assert cs[k] in cs;
      }
    }
    assert forall b :: b in cs ==> catalog(b.value.after.cv) in LookUp(cs, catalog) by {
      forall b | b in cs ensures catalog(b.value.after.cv) in LookUp(cs, catalog) {
        var k :| 0 <= k < |cs| && cs[k] == b;
        assert LookUp(cs, catalog)[k] == catalog(b.value.after.cv);
      }
    }
    r
  }

  /** The motors of the summary table and of the report request. */
  function ProjectMotors(pages: seq<Page>, catalog: Catalog): (r: seq<Motor>)
    requires CastsSucceed(AllBlocks(pages))
    ensures |r| <= |Comparisons(AllBlocks(pages))|
    ensures forall m :: m in r <==>
      exists b :: b in AllBlocks(pages) && b.kind == Comparison && catalog(b.value.after.cv) == Some(m)
  {
    BlockMotors(AllBlocks(pages), catalog)
  }

  lemma {:induction false} ComparisonsAppend(a: seq<Block>, b: seq<Block>)
    ensures Comparisons(a + b) == Comparisons(a) + Comparisons(b)
  {
    if a == [] {
      assert a + b == b;
    } else {
      assert (a + b)[0] == a[0] && (a + b)[1..] == a[1..] + b;
      ComparisonsAppend(a[1..], b);
    }
  }

  lemma {:induction false} PresentAppend(a: seq<Option<Motor>>, b: seq<Option<Motor>>)
    ensures Present(a + b) == Present(a) + Present(b)
  {
    if a == [] {
      assert a + b == b;
    } else {
      assert (a + b)[0] == a[0] && (a + b)[1..] == a[1..] + b;
      PresentAppend(a[1..], b);
    }
  }

  /** The catalog look-up splits over a concatenation. */
  lemma LookUpAppend(a: seq<Block>, b: seq<Block>, catalog: Catalog)
    requires forall x :: x in a ==> x.value.ComparisonValue?
    requires forall x :: x in b ==> x.value.ComparisonValue?
    ensures LookUp(a + b, catalog) == LookUp(a, catalog) + LookUp(b, catalog)
  {
    var l, la, lb := LookUp(a + b, catalog), LookUp(a, catalog), LookUp(b, catalog);
    forall i | 0 <= i < |l| ensures l[i] == (la + lb)[i] {
      if i < |a| {
        assert (a + b)[i] == a[i];
      } else {
        assert (a + b)[i] == b[i - |a|];
      }
    }
  }

  /** The motor list of a block list is the lists of its parts one after the other. */
  lemma BlockMotorsAppend(a: seq<Block>, b: seq<Block>, catalog: Catalog)
    requires CastsSucceed(a) && CastsSucceed(b)
    ensures CastsSucceed(a + b)
    ensures BlockMotors(a + b, catalog) == BlockMotors(a, catalog) + BlockMotors(b, catalog)
  {
    var ca, cb := Comparisons(a), Comparisons(b);
    ComparisonsAppend(a, b);
    LookUpAppend(ca, cb, catalog);
    PresentAppend(LookUp(ca, catalog), LookUp(cb, catalog));
  }

  /** The motor list of a document is the lists of its parts one after the other:
      each page contributes its motors in block order, pages in page order. */
  lemma MotorsAppend(a: seq<Page>, b: seq<Page>, catalog: Catalog)
    requires CastsSucceed(AllBlocks(a + b))
    ensures CastsSucceed(AllBlocks(a)) && CastsSucceed(AllBlocks(b))
    ensures ProjectMotors(a + b, catalog) == ProjectMotors(a, catalog) + ProjectMotors(b, catalog)
  {
    AllBlocksAppend(a, b);
    BlockMotorsAppend(AllBlocks(a), AllBlocks(b), catalog);
  }

  /** A list with no misses loses nothing when the misses are dropped. */
  lemma {:induction false} PresentAll(ms: seq<Option<Motor>>)
    requires forall i :: 0 <= i < |ms| ==> ms[i].Some?
    ensures |Present(ms)| == |ms|
    ensures forall i :: 0 <= i < |ms| ==> Present(ms)[i] == ms[i].value
  {
    if ms != [] {
      PresentAll(ms[1..]);
    }
  }

  /** When every comparison's projected rating is in the catalog, there is one motor per
      comparison block, in order. */
  lemma AllResolved(pages: seq<Page>, catalog: Catalog)
    requires CastsSucceed(AllBlocks(pages))
    requires forall b :: b in AllBlocks(pages) && b.kind == Comparison ==> catalog(b.value.after.cv).Some?
    ensures var cs := Comparisons(AllBlocks(pages));
      |ProjectMotors(pages, catalog)| == |cs|
      && forall i :: 0 <= i < |cs| ==> Some(ProjectMotors(pages, catalog)[i]) == catalog(cs[i].value.after.cv)
  {
    var cs := Comparisons(AllBlocks(pages));
    assert forall i :: 0 <= i < |cs| ==> cs[i] in cs;
    PresentAll(LookUp(cs, catalog));
  }

  /** Adding a new comparison block to the last page appends its 1 cv motor, when the
      catalog has one, to the end of the motor list.
      Automatic induction is off: the proof is direct, and an induction hypothesis over
      the page list would only put contradictory facts in the solver's context. */
  lemma {:induction false} AddComparisonAppendsMotor(pages: seq<Page>, id: string, catalog: Catalog)
    requires |pages| > 0 && DistinctPageIds(pages)
    requires CastsSucceed(AllBlocks(pages))
    ensures var r := AppendBlock(pages, TargetPageId(pages, None), NewBlock(id, Comparison));
      CastsSucceed(AllBlocks(r))
      && ProjectMotors(r, catalog) == ProjectMotors(pages, catalog)
        + (if catalog(1.0).Some? then [catalog(1.0).value] else [])
  {
    var block := NewBlock(id, Comparison);
    var r := AppendBlock(pages, TargetPageId(pages, None), block);
    AddedBlockIsLast(pages, block);
    BlockMotorsAppend(AllBlocks(pages), [block], catalog);
    assert Comparisons([block]) == [block];
    assert LookUp([block], catalog) == [catalog(1.0)];
  }

  /** Appending to the last page of a document with distinct page ids appends to its
      flat block list.
      Automatic induction is off: the proof is direct, and an induction hypothesis over
      the page list would only put contradictory facts in the solver's context. */
  lemma {:induction false} AddedBlockIsLast(pages: seq<Page>, block: Block)
    requires |pages| > 0 && DistinctPageIds(pages)
    ensures AllBlocks(AppendBlock(pages, TargetPageId(pages, None), block)) == AllBlocks(pages) + [block]
  {
    var n := |pages|;
    var r := AppendBlock(pages, TargetPageId(pages, None), block);
    AddGoesToLastPage(pages, block);
    var front, last := pages[..n - 1], pages[n - 1];
    var last' := last.(blocks := last.blocks + [block]);
    assert pages == front + [last];
    assert r == front + [last'];
    AllBlocksAppend(front, [last]);
    AllBlocksAppend(front, [last']);
    assert AllBlocks([last]) == last.blocks + AllBlocks([]);
    assert AllBlocks([last']) == last.blocks + [block] + AllBlocks([]);
  }

  /** The casts succeed on a document exactly when they succeed on each of its pages. */
  lemma {:induction false} CastsByPage(pages: seq<Page>)
    ensures CastsSucceed(AllBlocks(pages)) <==>
      forall i :: 0 <= i < |pages| ==> CastsSucceed(pages[i].blocks)
  {
    if pages != [] {
      CastsByPage(pages[1..]);
      assert forall i :: 1 <= i < |pages| ==> pages[i] == pages[1..][i - 1];
    }
  }

  /** Removing and moving blocks, and adding a new block, keep every comparison cast safe. */
  lemma EditsKeepCastsSafe(pages: seq<Page>, blockId: string, dir: Direction, pageId: string, kind: BlockType)
    requires CastsSucceed(AllBlocks(pages))
    ensures CastsSucceed(AllBlocks(RemoveBlocks(pages, blockId)))
    ensures CastsSucceed(AllBlocks(MoveBlocks(pages, blockId, dir)))
    ensures CastsSucceed(AllBlocks(AppendBlock(pages, pageId, NewBlock(blockId, kind))))
  {
    CastsByPage(pages);
    var removed := RemoveBlocks(pages, blockId);
    var moved := MoveBlocks(pages, blockId, dir);
    var added := AppendBlock(pages, pageId, NewBlock(blockId, kind));
    forall i | 0 <= i < |pages|
      ensures CastsSucceed(removed[i].blocks) && CastsSucceed(moved[i].blocks) && CastsSucceed(added[i].blocks)
    {
      assert forall b :: b in moved[i].blocks <==> b in multiset(pages[i].blocks);
    }
    CastsByPage(removed);
    CastsByPage(moved);
    CastsByPage(added);
  }

  // ---------------------------------------------------------------------------
  // The summary table

  /** The summary table's data: the general summary of the document's motors. */
  function DocumentSummary(pages: seq<Page>, catalog: Catalog): (s: ProjectSummary)
    requires CastsSucceed(AllBlocks(pages))
    ensures s.motorCount <= |Comparisons(AllBlocks(pages))|
    ensures |s.details| == s.motorCount
  {
    GeneralSummary(ProjectMotors(pages, catalog))
  }

  /** The table's starting-regime column. */
  function StartLabel(d: DimensioningResult): (caption: string)
    ensures caption == "SOFT-STARTER" <==> d.motor.cv >= 10.0
    ensures caption == "DIRETA" <==> d.motor.cv < 10.0
  {
    if d.motor.cv >= 10.0 then "SOFT-STARTER" else "DIRETA"
  }

  /** The table's starter-component line. */
  function StarterLabel(d: DimensioningResult): (caption: string)
    ensures caption == "CHAVE: SSW07 / CFW11" <==> d.motor.cv >= 10.0
    ensures caption == "INVERSOR: CFW500" <==> 1.0 <= d.motor.cv < 10.0
    ensures caption == "CHAVE MANUAL" <==> d.motor.cv < 1.0
  {
    if d.motor.cv >= 10.0 then "CHAVE: SSW07 / CFW11"
    else if d.motor.cv >= 1.0 then "INVERSOR: CFW500"
    else "CHAVE MANUAL"
  }

  /** The table's labels agree with the starters the engine recommends. */
  lemma LabelsMatchDimensioning(m: Motor)
    ensures StartLabel(Dimension(m)) == "SOFT-STARTER" <==> Dimension(m).softStarter.Some?
    ensures StarterLabel(Dimension(m)) == "CHAVE: SSW07 / CFW11" <==> Dimension(m).softStarter.Some?
    ensures StarterLabel(Dimension(m)) == "INVERSOR: CFW500" <==> Dimension(m).inverter.Some?
    ensures StarterLabel(Dimension(m)) == "CHAVE MANUAL" <==>
      Dimension(m).softStarter.None? && Dimension(m).inverter.None?
  {
    StarterBands(m);
  }

  // ---------------------------------------------------------------------------
  // The editor's state

  const InitialProject: Project := Project("Projeto Campo Forte", [
    Page("p1", [
      Block("b1", Text, TextValue("MEMORIAL DESCRITIVO TÉCNICO"), 14, Some(true), None, Some(Center)),
      Block("b2", Text, TextValue("DIMENSIONAMENTO E EFICIÊNCIA ENERGÉTICA"), 10, None, None, Some(Center)),
      Block("b3", Text, TextValue(""), 11, None, None, None)
    ])
  ])

  /** The component's state: the project being edited and the block last added. */
  class Editor {
    var project: Project
    var activeBlockId: Option<string>

    /** `saved` is the stored project, already parsed, if there is one. */
    constructor (saved: Option<Project>)
      ensures project == (if saved.Some? then saved.value else InitialProject)
      ensures activeBlockId == None
    {
      project := if saved.Some? then saved.value else InitialProject;
      activeBlockId := None;
    }

    method AddBlock(kind: BlockType, newId: string, targetPageId: Option<string>)
      requires Truthy(targetPageId) || |project.pages| > 0
      modifies this
      ensures project == old(project).(pages := AppendBlock(
        old(project.pages), TargetPageId(old(project.pages), targetPageId), NewBlock(newId, kind)))
      ensures activeBlockId == Some(newId)
    {
      var pageId := TargetPageId(project.pages, targetPageId);
      project := project.(pages := AppendBlock(project.pages, pageId, NewBlock(newId, kind)));
      activeBlockId := Some(newId);
    }

    method UpdateBlock(blockId: string, updates: BlockUpdate)
      modifies this
      ensures project == old(project).(pages := UpdateBlocks(old(project.pages), blockId, updates))
      ensures activeBlockId == old(activeBlockId)
    {
      project := project.(pages := UpdateBlocks(project.pages, blockId, updates));
    }

    method RemoveBlock(blockId: string)
      modifies this
      ensures project == old(project).(pages := RemoveBlocks(old(project.pages), blockId))
      ensures activeBlockId == old(activeBlockId)
    {
      project := project.(pages := RemoveBlocks(project.pages, blockId));
    }

    method MoveBlock(blockId: string, dir: Direction)
      modifies this
      ensures project == old(project).(pages := MoveBlocks(old(project.pages), blockId, dir))
      ensures activeBlockId == old(activeBlockId)
    {
      project := project.(pages := MoveBlocks(project.pages, blockId, dir));
    }
  }
}
