// Reading a draft: its text, its thinking, and the subsequence of its blocks that a client gets to see.
module Drafts {
  import opened Common
  import opened AnthropicMessages

  datatype Which = ToolBlocks | VisibleBlocks

  predicate Keep(w: Which, b: Block) {
    if w == ToolBlocks then b.ToolUse? else !b.OtherBlock?
  }

  function Blocks(os: seq<Open>): seq<Block> {
    seq(|os|, i requires 0 <= i < |os| => os[i].block)
  }

  /** The kept blocks of a draft, in order. */
  function Kept(w: Which, os: seq<Open>): seq<Open> {
    if os == [] then []
    else Kept(w, os[..|os| - 1]) + (if Keep(w, os[|os| - 1].block) then [os[|os| - 1]] else [])
  }

  /** How many kept blocks precede block `n`. */
  function Rank(w: Which, os: seq<Open>, n: nat): nat
    requires n <= |os|
  {
    |Kept(w, os[..n])|
  }

  lemma {:induction false} KeptAt(w: Which, os: seq<Open>, n: nat)
    requires n < |os| && Keep(w, os[n].block)
    ensures Rank(w, os, n) < |Kept(w, os)| && Kept(w, os)[Rank(w, os, n)] == os[n]
  {
    var last := |os| - 1;
    if n < last {
      KeptAt(w, os[..last], n);
      assert os[..last][..n] == os[..n];
    }
  }

  lemma {:induction false} KeptUpdate(w: Which, os: seq<Open>, n: nat, o: Open)
    requires n < |os| && Keep(w, os[n].block) && Keep(w, o.block)
    ensures Rank(w, os, n) < |Kept(w, os)| && Kept(w, os[n := o]) == Kept(w, os)[Rank(w, os, n) := o]
  {
    var last := |os| - 1;
    KeptAt(w, os, n);
    if n < last {
      KeptUpdate(w, os[..last], n, o);
      assert os[n := o][..last] == os[..last][n := o];
      assert os[..last][..n] == os[..n];
    } else {
      assert os[n := o][..last] == os[..last];
    }
  }

  lemma {:induction false} SkippedUpdate(w: Which, os: seq<Open>, n: nat, o: Open)
    requires n < |os| && !Keep(w, os[n].block) && !Keep(w, o.block)
    ensures Kept(w, os[n := o]) == Kept(w, os)
  {
    var last := |os| - 1;
    if n < last {
      SkippedUpdate(w, os[..last], n, o);
      assert os[n := o][..last] == os[..last][n := o];
    } else {
      assert os[n := o][..last] == os[..last];
    }
  }

  /** Changing a block without changing its kind moves no kept block. */
  lemma RankUpdate(w: Which, os: seq<Open>, n: nat, o: Open, m: nat)
    requires n < |os| && m <= |os| && (Keep(w, os[n].block) <==> Keep(w, o.block))
    ensures Rank(w, os[n := o], m) == Rank(w, os, m)
  {
    if n < m {
      assert os[n := o][..m] == os[..m][n := o];
      if Keep(w, o.block) { KeptUpdate(w, os[..m], n, o); } else { SkippedUpdate(w, os[..m], n, o); }
    } else {
      assert os[n := o][..m] == os[..m];
    }
  }

  lemma KeptAppend(w: Which, os: seq<Open>, o: Open)
    ensures Kept(w, os + [o]) == Kept(w, os) + (if Keep(w, o.block) then [o] else [])
    ensures forall m: nat :: m <= |os| ==> Rank(w, os + [o], m) == Rank(w, os, m)
  {
    assert (os + [o])[..|os|] == os;
    forall m: nat | m <= |os| ensures Rank(w, os + [o], m) == Rank(w, os, m) {
      assert (os + [o])[..m] == os[..m];
    }
  }

  function Part(b: Block): string { if b.Text? then b.text else "" }

  function Thought(b: Block): string { if b.Thinking? then b.text else "" }

  lemma TextAppend(os: seq<Open>, o: Open)
    ensures TextOf(Blocks(os + [o])) == TextOf(Blocks(os)) + Part(o.block)
    ensures ThinkingOf(Blocks(os + [o])) == ThinkingOf(Blocks(os)) + Thought(o.block)
  {
    assert Blocks(os + [o])[..|os|] == Blocks(os);
  }

  lemma Associate(a: string, b: string, c: string)
    ensures (a + b) + c == a + (b + c)
  {}

  lemma Reorder(a: string, b: string, c: string)
    requires b == "" || c == ""
    ensures (a + b) + c == (a + c) + b
  {
    assert a + "" == a && (a + c) + "" == a + c;
  }

  lemma {:induction false} TextUpdate(os: seq<Open>, n: nat, o: Open, more: string)
    requires n < |os| && Part(o.block) == Part(os[n].block) + more
    requires more == "" || forall m :: n < m < |os| ==> !os[m].block.Text?
    ensures TextOf(Blocks(os[n := o])) == TextOf(Blocks(os)) + more
  {
    hide TextOf, Blocks;
    var last := |os| - 1;
    var init, end := os[..last], os[last];
    assert os == init + [end];
    TextAppend(init, end);
    if n < last {
      assert Part(end.block) == "" || more == "";
      TextUpdate(init, n, o, more);
      assert os[n := o] == init[n := o] + [end];
      TextAppend(init[n := o], end);
      hide Part;
      Reorder(TextOf(Blocks(init)), more, Part(end.block));
    } else {
      assert os[n := o] == init + [o];
      TextAppend(init, o);
      hide Part;
      Associate(TextOf(Blocks(init)), Part(end.block), more);
    }
  }

  lemma {:induction false} ThinkingUpdate(os: seq<Open>, n: nat, o: Open, more: string)
    requires n < |os| && Thought(o.block) == Thought(os[n].block) + more
    requires more == "" || forall m :: n < m < |os| ==> !os[m].block.Thinking?
    ensures ThinkingOf(Blocks(os[n := o])) == ThinkingOf(Blocks(os)) + more
  {
    hide ThinkingOf, Blocks;
    var last := |os| - 1;
    var init, end := os[..last], os[last];
    assert os == init + [end];
    TextAppend(init, end);
    if n < last {
      assert Thought(end.block) == "" || more == "";
      ThinkingUpdate(init, n, o, more);
      assert os[n := o] == init[n := o] + [end];
      TextAppend(init[n := o], end);
      hide Thought;
      Reorder(ThinkingOf(Blocks(init)), more, Thought(end.block));
    } else {
      assert os[n := o] == init + [o];
      TextAppend(init, o);
      hide Thought;
      Associate(ThinkingOf(Blocks(init)), Thought(end.block), more);
    }
  }

  /** `index` finds each kept block of the draft, by upstream index, at its rank. */
  predicate IndexRel(w: Which, index: map<int, nat>, at: map<int, nat>, os: seq<Open>) {
    && (forall i :: i in at ==> at[i] < |os|)
    && (forall i :: i in at && Keep(w, os[at[i]].block) ==> i in index && index[i] == Rank(w, os, at[i]))
    && (forall i :: i in index ==> i in at && Keep(w, os[at[i]].block))
  }

  lemma IndexAppend(w: Which, index: map<int, nat>, at: map<int, nat>, os: seq<Open>, i: int, o: Open)
    requires IndexRel(w, index, at, os) && i !in at
    ensures IndexRel(w, if Keep(w, o.block) then index[i := |Kept(w, os)|] else index, at[i := |os|], os + [o])
  {
    hide Kept, Keep;
    KeptAppend(w, os, o);
    assert (os + [o])[..|os|] == os[..|os|] == os;
    var at2 := at[i := |os|];
    forall j | j in at2 ensures at2[j] < |os + [o]| && (os + [o])[at2[j]] == (if j == i then o else os[at[j]]) {}
  }

  /** Only the block's own text changes: the indices stay. */
  lemma IndexUpdate(w: Which, index: map<int, nat>, at: map<int, nat>, os: seq<Open>, n: nat, o: Open)
    requires IndexRel(w, index, at, os) && n < |os| && (Keep(w, os[n].block) <==> Keep(w, o.block))
    ensures IndexRel(w, index, at, os[n := o])
  {
    forall i | i in at ensures Rank(w, os[n := o], at[i]) == Rank(w, os, at[i]) {
      RankUpdate(w, os, n, o, at[i]);
    }
  }

  // ---- the finished blocks -------------------------------------------------------------------

  /** A tool block that started without an input and never got an argument. */
  predicate WithoutInput(o: Open) { o.block.ToolUse? && o.block.input.None? && o.partial == "" }

  predicate SomeWithoutInput(os: seq<Open>) { exists o :: o in os && WithoutInput(o) }

  predicate ArgumentsParse(os: seq<Open>, parse: string -> Option<Json>) {
    forall o :: o in os && o.block.ToolUse? && o.partial != "" ==> parse(o.partial).Some?
  }

  lemma {:induction false} CompletedText(os: seq<Open>, parse: string -> Option<Json>)
    ensures TextOf(CompletedAll(os, parse)) == TextOf(Blocks(os))
    ensures ThinkingOf(CompletedAll(os, parse)) == ThinkingOf(Blocks(os))
  {
    if os != [] {
      var init := os[..|os| - 1];
      CompletedText(init, parse);
      assert CompletedAll(os, parse)[..|os| - 1] == CompletedAll(init, parse);
      assert Blocks(os)[..|os| - 1] == Blocks(init);
    }
  }

  /** What the client sees of a draft holds all its text and all its tools. */
  lemma {:induction false} VisibleHoldsAll(os: seq<Open>)
    ensures TextOf(Blocks(Kept(VisibleBlocks, os))) == TextOf(Blocks(os))
    ensures ThinkingOf(Blocks(Kept(VisibleBlocks, os))) == ThinkingOf(Blocks(os))
    ensures Kept(ToolBlocks, Kept(VisibleBlocks, os)) == Kept(ToolBlocks, os)
  {
    if os != [] {
      var init, last := os[..|os| - 1], os[|os| - 1];
      VisibleHoldsAll(init);
      assert os == init + [last];
      TextAppend(init, last);
      KeptAppend(ToolBlocks, init, last);
      var vs := Kept(VisibleBlocks, init);
      if Keep(VisibleBlocks, last.block) {
        TextAppend(vs, last);
        KeptAppend(ToolBlocks, vs, last);
      } else {
        assert vs + [] == vs && Kept(ToolBlocks, init) + [] == Kept(ToolBlocks, init);
      }
    }
  }
}
