/**
  The hash of a block concatenates its fields in base 2 without separators.  Across authors two
  different blocks may therefore collide; along one author's proposals they never do.
 */
module BlockHash {
  import opened Blocks

  /** The number written by base-2 digits. */
  function Value(s: string): nat {
    if s == [] then 0 else 2 * Value(s[..|s| - 1]) + (if s[|s| - 1] == '0' then 0 else 1)
  }

  lemma {:induction false} DigitsRoundTrip(k: nat)
    ensures Value(Digits(k)) == k
  {
    if k >= 2 {
      DigitsRoundTrip(k / 2);
      var s := Digits(k);
      assert s[..|s| - 1] == Digits(k / 2);
    } else {
      var s := Digits(k);
      assert s[..0] == [];
    }
  }

  /** A larger number has at least as many digits. */
  lemma {:induction false} DigitsMonotone(j: nat, k: nat)
    requires j <= k
    ensures |Digits(j)| <= |Digits(k)|
  {
    if k >= 2 && j >= 2 {
      DigitsMonotone(j / 2, k / 2);
    }
  }

  /** What follows the author in the preimage. */
  function Tail(b: Block): string {
    Binary(b.view) + Binary(Rank(b.height)) + Binary(b.batchId)
  }

  lemma HashSplits(b: Block)
    ensures Hash(b) == Binary(b.author) + Tail(b)
  {
    hide Binary;
  }

  lemma SameAuthor(b: Block, c: Block)
    requires b.author == c.author && Hash(b) == Hash(c)
    ensures Tail(b) == Tail(c)
  {
    HashSplits(b);
    HashSplits(c);
    hide Hash; hide Tail; hide Binary;
    assert (Binary(b.author) + Tail(b))[|Binary(b.author)|..] == Tail(b);
    assert (Binary(c.author) + Tail(c))[|Binary(c.author)|..] == Tail(c);
  }

  /** Equal lengths of the parts make the parts equal. */
  lemma SplitTail(b: Block, c: Block)
    requires Tail(b) == Tail(c) && |Binary(b.view)| == |Binary(c.view)|
    ensures b.view == c.view && b.height == c.height && Binary(b.batchId) == Binary(c.batchId)
  {
    var n := |Binary(b.view)|;
    assert |Binary(Rank(b.height))| == 1 && |Binary(Rank(c.height))| == 1;
    assert Tail(b)[..n] == Binary(b.view) && Tail(c)[..n] == Binary(c.view);
    assert Tail(b)[n..n + 1] == Binary(Rank(b.height)) && Tail(c)[n..n + 1] == Binary(Rank(c.height));
    assert Tail(b)[n + 1..] == Binary(b.batchId) && Tail(c)[n + 1..] == Binary(c.batchId);
    DigitsRoundTrip(b.view);
    DigitsRoundTrip(c.view);
    DigitsRoundTrip(Rank(b.height));
    DigitsRoundTrip(Rank(c.height));
  }

  /** The encoding of a batch identifier of -1 is recognised by its sign. */
  lemma SignAtEnd(b: Block)
    requires b.batchId >= -1
    ensures '-' in Tail(b) <==> b.batchId == -1
  {
    assert Digits(1) == "1";
    if b.batchId == -1 {
      assert Binary(-1) == "-1";
      assert Binary(-1)[0] == '-';
      var n := |Binary(b.view) + Binary(Rank(b.height))|;
      assert Tail(b)[n] == '-';
    }
  }

  /** One author's blocks, proposed at increasing positions with increasing batch identifiers: a longer
      view would need a shorter, hence smaller, batch identifier. */
  lemma HashesDiffer(b: Block, c: Block)
    requires b.author == c.author && Layer(b.view, b.height) < Layer(c.view, c.height)
    requires b.batchId >= -1 && c.batchId >= -1
    requires b.batchId >= 0 && c.batchId >= 0 ==> b.batchId < c.batchId
    ensures Hash(b) != Hash(c)
  {
    if Hash(b) == Hash(c) {
      SameAuthor(b, c);
      SignAtEnd(b);
      SignAtEnd(c);
      DigitsMonotone(b.view, c.view);
      if b.batchId >= 0 {
        DigitsMonotone(b.batchId, c.batchId);
      }
      assert |Tail(b)| == |Binary(b.view)| + 1 + |Binary(b.batchId)|;
      assert |Tail(c)| == |Binary(c.view)| + 1 + |Binary(c.batchId)|;
      SplitTail(b, c);
      assert false;
    }
  }

  /** Authors whose encodings have one length cannot collide. */
  lemma EqualLengthAuthors(b: Block, c: Block)
    requires b.author != c.author && |Binary(b.author)| == |Binary(c.author)|
    ensures Hash(b) != Hash(c)
  {
    var n := |Binary(b.author)|;
    assert Hash(b) == Binary(b.author) + Tail(b) && Hash(c) == Binary(c.author) + Tail(c);
    assert Hash(b)[..n] == Binary(b.author) && Hash(c)[..n] == Binary(c.author);
    DigitsRoundTrip(b.author);
    DigitsRoundTrip(c.author);
  }

  lemma SmallDigits()
    ensures Digits(0) == "0" && Digits(1) == "1" && Digits(2) == "10" && Digits(3) == "11"
    ensures Digits(5) == "101" && Digits(13) == "1101"
  {
    assert Digits(2) == Digits(1) + ['0'];
    assert Digits(3) == Digits(1) + ['1'];
    assert Digits(5) == Digits(2) + ['1'];
    assert Digits(6) == Digits(3) + ['0'];
    assert Digits(13) == Digits(6) + ['1'];
  }

  /** Different authors can share a hash: both preimages are 1100-1, or both are 1011101. */
  lemma HashesCollide()
    ensures Hash(Block(1, 2, H1, -1, None, [])) == Hash(Block(3, 0, H1, -1, None, []))
    ensures Hash(Block(1, 0, H2, 13, None, [])) == Hash(Block(2, 1, H2, 5, None, []))
  {
    SmallDigits();
    hide Digits;
  }

  ghost predicate AuthorsNeverCollide(n: nat) {
    forall b: Block, c: Block :: b.author < n && c.author < n && b.author != c.author ==> Hash(b) != Hash(c)
  }

  /** Hashes separate the authors of a committee exactly when it has at most two nodes. */
  lemma CollisionFreeCommittees(n: nat)
    ensures AuthorsNeverCollide(n) <==> n <= 2
  {
    if n <= 2 {
      forall b: Block, c: Block | b.author < n && c.author < n && b.author != c.author ensures Hash(b) != Hash(c) {
        EqualLengthAuthors(b, c);
      }
    } else {
      HashesCollide();
      hide Hash;
      var b, c := Block(1, 0, H2, 13, None, []), Block(2, 1, H2, 5, None, []);
      assert b.author < n && c.author < n && Hash(b) == Hash(c);
    }
  }
}
