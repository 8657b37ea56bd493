/** From the bytes of a block to what the lookup relies on: when a hash computed from them separates
    blocks. */
module BlockSeparation {
  import opened BlockKeys
  import opened CacheLookup
  import B = BlockBytes
  import C = CacheIndexing

  /** The bytes of a name. */
  type Text = string -> seq<nat>

  function BytesOf(text: Text, x: Block): seq<nat> {
    B.Preimage(text(x.adapter), x.parent, x.tokens)
  }

  /** The hash of these blocks is `g` of their bytes. */
  ghost predicate Computes(h: BlockHash, g: seq<nat> -> nat, text: Text, blocks: iset<Block>) {
    forall x :: x in blocks ==> HashOf(h, x) == g(BytesOf(text, x))
  }

  /** On the bytes of these blocks `g` has no collision and is never zero. */
  ghost predicate CollisionFree(g: seq<nat> -> nat, text: Text, blocks: iset<Block>) {
    && (forall x, y :: x in blocks && y in blocks && g(BytesOf(text, x)) == g(BytesOf(text, y)) ==>
         BytesOf(text, x) == BytesOf(text, y))
    && (forall x :: x in blocks ==> g(BytesOf(text, x)) != 0)
  }

  /** Blocks as the code hashes them. */
  ghost predicate Hashable(text: Text, blocks: iset<Block>) {
    forall x :: x in blocks ==> B.IsBlock(x.parent, x.tokens) && B.AreBytes(text(x.adapter))
  }

  ghost predicate Unconfused(text: Text, a: string, a': string) {
    text(a) != text(a') && !B.Extends(text(a), text(a')) && !B.Extends(text(a'), text(a))
  }

  ghost predicate NoneConfused(text: Text, blocks: iset<Block>) {
    forall x, y :: x in blocks && y in blocks && x.adapter != y.adapter ==> Unconfused(text, x.adapter, y.adapter)
  }

  lemma BytesDetermineBlock(text: Text, x: Block, y: Block)
    requires B.IsBlock(x.parent, x.tokens) && B.IsBlock(y.parent, y.tokens)
    requires B.AreBytes(text(x.adapter)) && B.AreBytes(text(y.adapter))
    requires BytesOf(text, x) == BytesOf(text, y) && (x.adapter != y.adapter ==> Unconfused(text, x.adapter, y.adapter))
    ensures x == y
  {
    hide B.Preimage, B.IsBlock, B.Extends;
    var a, a' := text(x.adapter), text(y.adapter);
    assert B.SameBytes(a, x.parent, x.tokens, a', y.parent, y.tokens);
    B.ConfusableIff(a, a');
    B.SameLength(a, x.parent, x.tokens, a', y.parent, y.tokens);
  }

  /** The hypothesis of the lookup theorems, from the code's own bytes: a hash without collisions on
      the bytes actually hashed separates the blocks, if no two of their adapters can be confused. */
  lemma BytesSeparate(h: BlockHash, g: seq<nat> -> nat, text: Text, blocks: iset<Block>)
    requires Computes(h, g, text, blocks) && CollisionFree(g, text, blocks) && Hashable(text, blocks)
    requires NoneConfused(text, blocks)
    ensures Separates(h, blocks)
  {
    hide BytesOf, Unconfused, B.IsBlock, B.AreBytes;
    forall x, y | x in blocks && y in blocks && HashOf(h, x) == HashOf(h, y) ensures x == y {
      BytesDetermineBlock(text, x, y);
    }
    forall x | x in blocks ensures HashOf(h, x) != 0 {
    }
  }

  /** All blocks of some adapters. */
  ghost function BlocksOf(adapters: set<string>): iset<Block> {
    iset x: Block | x.adapter in adapters && B.IsBlock(x.parent, x.tokens)
  }

  /** And for no other adapters: over all their blocks, the best hash separates exactly if no two
      can be confused. */
  lemma SeparatesIff(h: BlockHash, g: seq<nat> -> nat, text: Text, adapters: set<string>)
    requires Computes(h, g, text, BlocksOf(adapters)) && CollisionFree(g, text, BlocksOf(adapters))
    requires forall a :: a in adapters ==> B.AreBytes(text(a))
    ensures Separates(h, BlocksOf(adapters))
            <==> forall a, a' :: a in adapters && a' in adapters && a != a' ==> Unconfused(text, a, a')
  {
    hide BytesOf, Unconfused, B.IsBlock, B.AreBytes;
    var blocks := BlocksOf(adapters);
    if Separates(h, blocks) {
      forall a, a' | a in adapters && a' in adapters && a != a' ensures Unconfused(text, a, a') {
        if !Unconfused(text, a, a') {
          var x, y := ConfusedBlocks(text, a, a');
        }
      }
    }
    if forall a, a' :: a in adapters && a' in adapters && a != a' ==> Unconfused(text, a, a') {
      BytesSeparate(h, g, text, blocks);
    }
  }

  lemma ConfusedBlocks(text: Text, a: string, a': string) returns (x: Block, y: Block)
    requires B.AreBytes(text(a)) && B.AreBytes(text(a')) && !Unconfused(text, a, a')
    ensures x.adapter == a && y.adapter == a' && BytesOf(text, x) == BytesOf(text, y)
    ensures B.IsBlock(x.parent, x.tokens) && B.IsBlock(y.parent, y.tokens)
  {
    hide B.Preimage, B.Extends, B.IsBlock, B.AreBytes;
    B.ConfusableIff(text(a), text(a'));
    var p, s, p', s' :| B.SameBytes(text(a), p, s, text(a'), p', s');
    x, y := Block(a, p, s), Block(a', p', s');
  }

  /** The lookup after any events, on the code's own bytes. */
  lemma LookupFromBytes(h: BlockHash, g: seq<nat> -> nat, text: Text, blocks: iset<Block>, log: seq<C.Event>, w: string,
                        said: seq<seq<Tokens>>, query: Prompt)
    requires Computes(h, g, text, blocks) && CollisionFree(g, text, blocks) && Hashable(text, blocks)
    requires NoneConfused(text, blocks)
    requires |said| == |log| && WholeReports(h, blocks, log, w, said) && Among(h, query.adapter, query.chunks, blocks)
    ensures
      var n := Leading(ChainHashes(h, query.adapter, query.chunks), Known(log, w));
      && (forall i :: 0 <= i < n ==> Covered(h, log, w, said, query, i))
      && (n < |query.chunks| ==> !Covered(h, log, w, said, query, n))
  {
    hide BytesOf, Unconfused, Computes, CollisionFree, Hashable, ChainHashes, WholeReports, Among, Covered, Known;
    BytesSeparate(h, g, text, blocks);
    LookupAfterAnyEvents(h, blocks, log, w, said, query);
  }
}
