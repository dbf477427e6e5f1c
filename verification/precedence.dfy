/** The "last one present wins" rule by which a node template picks its
    driver and a project logging its kind. */
module Precedence {

  /** One candidate in a "last one present wins" choice: whether it is
      present, and the name it selects. */
  datatype Block = Block(present: bool, name: string)

  /** The reference rule: the name of the last candidate present, or ""
      when there is none. */
  function LastPresent(bs: seq<Block>): string
  {
    if bs == [] then ""
    else if bs[|bs| - 1].present then bs[|bs| - 1].name
    else LastPresent(bs[..|bs| - 1])
  }

  /** What the converters do: each candidate present overwrites the name
      picked so far. */
  function Overwrite(bs: seq<Block>, picked: string): string
  {
    if bs == [] then picked
    else Overwrite(bs[1..], if bs[0].present then bs[0].name else picked)
  }

  predicate AnyPresent(bs: seq<Block>)
  {
    exists i :: 0 <= i < |bs| && bs[i].present
  }

  /** The last candidate present decides ... */
  lemma {:induction false} LastPresentAt(bs: seq<Block>, i: nat)
    requires i < |bs| && bs[i].present
    requires forall j :: i < j < |bs| ==> !bs[j].present
    ensures LastPresent(bs) == bs[i].name
    decreases |bs|
  {
    if i < |bs| - 1 {
      var init := bs[..|bs| - 1];
      assert forall j :: i < j < |init| ==> init[j] == bs[j];
      LastPresentAt(init, i);
    }
  }

  /** ... and with none present there is no name. */
  lemma {:induction false} NonePresent(bs: seq<Block>)
    requires !AnyPresent(bs)
    ensures LastPresent(bs) == ""
    decreases |bs|
  {
    if bs != [] {
      var init := bs[..|bs| - 1];
      assert !AnyPresent(init) by {
        forall i | 0 <= i < |init|
          ensures !init[i].present
        {
          assert init[i] == bs[i];
        }
      }
      NonePresent(init);
    }
  }

  lemma {:induction false} OverwriteLast(bs: seq<Block>, b: Block, picked: string)
    ensures Overwrite(bs + [b], picked) == if b.present then b.name else Overwrite(bs, picked)
    decreases |bs|
  {
    if bs != [] {
      assert (bs + [b])[1..] == bs[1..] + [b];
      OverwriteLast(bs[1..], b, if bs[0].present then bs[0].name else picked);
    }
  }

  /** Overwriting one candidate at a time ends with the name of the last
      one present, and keeps the starting name when none is present. */
  lemma {:induction false} OverwriteIsLastPresent(bs: seq<Block>, picked: string)
    ensures Overwrite(bs, picked) == if AnyPresent(bs) then LastPresent(bs) else picked
    decreases |bs|
  {
    if bs != [] {
      var init, b := bs[..|bs| - 1], bs[|bs| - 1];
      assert bs == init + [b];
      OverwriteLast(init, b, picked);
      if !b.present {
        OverwriteIsLastPresent(init, picked);
        if AnyPresent(bs) {
          var i :| 0 <= i < |bs| && bs[i].present;
          assert init[i].present;
        }
        if AnyPresent(init) {
          var i :| 0 <= i < |init| && init[i].present;
          assert bs[i].present;
        }
      }
    }
  }
}
