/** `rewrite_table_fallback_to_direct_call` of nccl/prober.py: the fallback that loads a function from
    ncclDevFuncTable and calls it indirectly becomes a direct call of one function, guarded by its id. */
module TableRewrite {
  import opened Options
  import opened Ptx

  const CALL_WINDOW := 32

  // `find_indirect_call_end`: the closing brace after a call statement on the register.
  function FindCallEnd(lines: seq<Line>, k: nat, stop: nat, reg: Name, sawCall: bool, sawTarget: bool): (r: Option<nat>)
    requires stop <= |lines|
    ensures r.Some? ==> k <= r.value < stop && lines[r.value].CloseBrace?
    decreases stop - k
  {
    if k >= stop then None else
      var call := sawCall || lines[k].CallHead?;
      var target := sawTarget || (call && lines[k] == Operand(reg));
      if target && lines[k].CloseBrace? then Some(k) else FindCallEnd(lines, k + 1, stop, reg, call, target)
  }

  // The five address lines: the id is widened, scaled by eight, added to the table and loaded from.
  predicate AddressLines(lines: seq<Line>, i: nat) {
    && i + 4 < |lines|
    && lines[i].Cvt? && lines[i + 1].MulWide8? && lines[i + 2].MovTable?
    && lines[i + 3].AddS64? && lines[i + 4].LdGlobal?
    && lines[i + 1].src == lines[i].dst
    && lines[i + 3].table == lines[i + 2].dst && lines[i + 3].offset == lines[i + 1].dst
    && lines[i + 4].addr == lines[i + 3].dst
  }

  // The last line of a fallback block that starts at i.
  function BlockEnd(lines: seq<Line>, i: nat): (r: Option<nat>)
    ensures r.Some? ==> AddressLines(lines, i) && i + 5 <= r.value < |lines|
  {
    if !AddressLines(lines, i) then None else
      var stop := if |lines| <= i + 5 + CALL_WINDOW then |lines| else i + 5 + CALL_WINDOW;
      FindCallEnd(lines, i + 5, stop, lines[i + 4].dst, false, false)
  }

  // --- Which lines are a block ---

  // A call statement on the register, begun at start or later, is closed at e.
  ghost predicate ClosesCall(lines: seq<Line>, start: nat, reg: Name, e: nat) {
    && start <= e < |lines| && lines[e].CloseBrace?
    && exists h, o :: start <= h < o < e && lines[h].CallHead? && lines[o] == Operand(reg)
  }

  // Five address lines from i on, and a closed call of what they load, within 32 lines.
  ghost predicate IsBlock(lines: seq<Line>, i: nat, e: nat) {
    && i + 5 <= e < i + 37 && e < |lines|
    && lines[i].Cvt?
    && lines[i + 1].MulWide8? && lines[i + 1].src == lines[i].dst
    && lines[i + 2].MovTable?
    && lines[i + 3].AddS64? && lines[i + 3].table == lines[i + 2].dst && lines[i + 3].offset == lines[i + 1].dst
    && lines[i + 4].LdGlobal? && lines[i + 4].addr == lines[i + 3].dst
    && ClosesCall(lines, i + 5, lines[i + 4].dst, e)
  }

  ghost predicate IsFirstBlock(lines: seq<Line>, i: nat, e: nat) {
    IsBlock(lines, i, e) && forall k :: 0 <= k < e ==> !IsBlock(lines, i, k)
  }

  // The flags of the scan at line k: whether a call head was seen, and then an operand on the register.
  ghost predicate SawCall(lines: seq<Line>, start: nat, k: nat)
    requires k <= |lines|
  {
    exists h :: start <= h < k && lines[h].CallHead?
  }

  ghost predicate SawTarget(lines: seq<Line>, start: nat, k: nat, reg: Name)
    requires k <= |lines|
  {
    exists h, o :: start <= h < o < k && lines[h].CallHead? && lines[o] == Operand(reg)
  }

  lemma SawNext(lines: seq<Line>, start: nat, k: nat, reg: Name)
    requires start <= k < |lines|
    ensures SawCall(lines, start, k + 1) <==> SawCall(lines, start, k) || lines[k].CallHead?
    ensures SawTarget(lines, start, k + 1, reg)
            <==> SawTarget(lines, start, k, reg) || (SawCall(lines, start, k) && lines[k] == Operand(reg))
  {
    if SawTarget(lines, start, k, reg) {
      var h, o :| start <= h < o < k && lines[h].CallHead? && lines[o] == Operand(reg);
      assert SawTarget(lines, start, k + 1, reg);
    }
    if SawCall(lines, start, k) && lines[k] == Operand(reg) {
      var h :| start <= h < k && lines[h].CallHead?;
      assert SawTarget(lines, start, k + 1, reg);
    }
  }

  lemma {:induction false} FindCallEndIsFirst(lines: seq<Line>, start: nat, k: nat, stop: nat, reg: Name)
    requires start <= k <= stop <= |lines|
    ensures match FindCallEnd(lines, k, stop, reg, SawCall(lines, start, k), SawTarget(lines, start, k, reg))
            case None => forall e :: k <= e < stop ==> !ClosesCall(lines, start, reg, e)
            case Some(e) =>
              ClosesCall(lines, start, reg, e) && forall j :: k <= j < e ==> !ClosesCall(lines, start, reg, j)
    decreases stop - k
  {
    if k < stop {
      SawNext(lines, start, k, reg);
      assert ClosesCall(lines, start, reg, k) <==> SawTarget(lines, start, k, reg) && lines[k].CloseBrace?;
      hide SawCall, SawTarget, ClosesCall;
      FindCallEndIsFirst(lines, start, k + 1, stop, reg);
    }
  }

  /** A block is found exactly where five address lines are followed by a closed call within 32 lines, and it ends at
      the first brace that closes one. */
  lemma BlockEndIsFirst(lines: seq<Line>, i: nat)
    ensures forall e: nat :: BlockEnd(lines, i) == Some(e) <==> IsFirstBlock(lines, i, e)
    ensures BlockEnd(lines, i).None? <==> forall e: nat :: !IsBlock(lines, i, e)
  {
    hide FindCallEnd;
    if AddressLines(lines, i) {
      var stop := if |lines| <= i + 5 + CALL_WINDOW then |lines| else i + 5 + CALL_WINDOW;
      assert !SawCall(lines, i + 5, i + 5) && !SawTarget(lines, i + 5, i + 5, lines[i + 4].dst);
      FindCallEndIsFirst(lines, i + 5, i + 5, stop, lines[i + 4].dst);
      hide ClosesCall;
      var end := BlockEnd(lines, i);
      forall e: nat
        ensures IsBlock(lines, i, e) <==> i + 5 <= e < stop && ClosesCall(lines, i + 5, lines[i + 4].dst, e)
      {
      }
      assert end.Some? ==> IsFirstBlock(lines, i, end.value);
    }
  }

  const NEW_LINES := 19

  // The replacement, number k: a compare, a trap for any other id, and a direct call.
  function NewBlock(k: nat, src: Name, id: nat, symbol: string): (block: seq<Line>)
    ensures |block| == NEW_LINES
  {
    [Comment, Inert, Inert,
     Setp(Eq, FreshPred(k), src, id), PredBra(FreshPred(k), CallLabel(k, id)),
     Trap, BraUni(DoneLabel(k)),
     Label(CallLabel(k, id)), Inert, Inert, CallHead, Callee(symbol), Inert, Inert, CloseBrace,
     BraUni(DoneLabel(k)),
     Label(DoneLabel(k)), CloseBrace, Comment]
  }

  // The output for the lines from i on, after k replacements.
  function Rewrite(lines: seq<Line>, id: nat, symbol: string, i: nat, k: nat): seq<Line>
    decreases |lines| - i
  {
    if i >= |lines| then [] else
      match BlockEnd(lines, i)
      case None => [lines[i]] + Rewrite(lines, id, symbol, i + 1, k)
      case Some(e) => NewBlock(k, lines[i].src, id, symbol) + Rewrite(lines, id, symbol, e + 1, k + 1)
  }

  function Rewritten(lines: seq<Line>, id: nat, symbol: string): seq<Line> {
    Rewrite(lines, id, symbol, 0, 0)
  }

  // The blocks replaced from i on.
  function Replacements(lines: seq<Line>, i: nat): nat
    decreases |lines| - i
  {
    if i >= |lines| then 0 else
      match BlockEnd(lines, i)
      case None => Replacements(lines, i + 1)
      case Some(e) => 1 + Replacements(lines, e + 1)
  }

  method FindIndirectCallEnd(lines: seq<Line>, start: nat, reg: Name) returns (r: Option<nat>)
    requires start <= |lines|
    ensures r == FindCallEnd(lines, start, if |lines| <= start + CALL_WINDOW then |lines| else start + CALL_WINDOW,
                             reg, false, false)
  {
    var stop := if |lines| <= start + CALL_WINDOW then |lines| else start + CALL_WINDOW;
    var sawCall, sawTarget := false, false;
    for k := start to stop
      invariant FindCallEnd(lines, start, stop, reg, false, false)
                == FindCallEnd(lines, k, stop, reg, sawCall, sawTarget)
    {
      if lines[k].CallHead? {
        sawCall := true;
      }
      if sawCall && lines[k] == Operand(reg) {
        sawTarget := true;
      }
      if sawTarget && lines[k].CloseBrace? {
        return Some(k);
      }
    }
    r := None;
  }

  // One round of the loop: the output so far grows by what the rewrite emits next.
  lemma RewriteAt(lines: seq<Line>, id: nat, symbol: string, i: nat, k: nat, out: seq<Line>)
    requires i < |lines|
    ensures match BlockEnd(lines, i)
            case None => out + Rewrite(lines, id, symbol, i, k)
                         == (out + [lines[i]]) + Rewrite(lines, id, symbol, i + 1, k)
            case Some(e) => out + Rewrite(lines, id, symbol, i, k)
                            == (out + NewBlock(k, lines[i].src, id, symbol)) + Rewrite(lines, id, symbol, e + 1, k + 1)
  {
    hide NewBlock, AddressLines, FindCallEnd, BlockEnd;
  }

  lemma {:induction false} NothingLeft(lines: seq<Line>, id: nat, symbol: string, i: nat, k: nat)
    requires i >= |lines|
    ensures Rewrite(lines, id, symbol, i, k) == []
  {
  }

  // The block that starts at a line, if the five address lines and a call follow.
  method MatchBlock(lines: seq<Line>, idx: nat) returns (end: Option<nat>)
    ensures end == BlockEnd(lines, idx)
  {
    hide FindCallEnd;
    end := None;
    if AddressLines(lines, idx) {
      end := FindIndirectCallEnd(lines, idx + 5, lines[idx + 4].dst);
    }
  }

  method RewriteTableFallbackToDirectCall(lines: seq<Line>, functionId: Option<nat>, symbol: string)
    returns (out: seq<Line>, replacements: nat)
    ensures functionId.None? ==> out == lines && replacements == 0
    ensures functionId.Some? ==>
      out == Rewritten(lines, functionId.value, symbol) && replacements == Replacements(lines, 0)
  {
    if functionId.None? {
      return lines, 0;
    }
    hide NewBlock, BlockEnd, Rewrite;
    var id := functionId.value;
    out, replacements := [], 0;
    var idx := 0;
    while idx < |lines|
      invariant idx <= |lines|
      invariant Rewritten(lines, id, symbol) == out + Rewrite(lines, id, symbol, idx, replacements)
      invariant replacements + Replacements(lines, idx) == Replacements(lines, 0)
      decreases |lines| - idx
    {
      var end := MatchBlock(lines, idx);
      RewriteAt(lines, id, symbol, idx, replacements, out);
      match end {
        case None =>
          out := out + [lines[idx]];
          idx := idx + 1;
        case Some(e) =>
          out := out + NewBlock(replacements, lines[idx].src, id, symbol);
          replacements := replacements + 1;
          idx := e + 1;
      }
    }
    NothingLeft(lines, id, symbol, idx, replacements);
  }
}
