/** Replay undoes recording. */
module ReplaySafety {
  // The compiled stream is bracketed, undoes the recorder, and exists exactly for plannable outputs.

  import opened Wrappers
  import opened ReplayModel

  function AsSet(blocks: seq<Block>): set<Block> {
    set b | b in blocks
  }

  ghost predicate Distinct(blocks: seq<Block>) {
    forall i, j :: 0 <= i < j < |blocks| ==> blocks[i].id != blocks[j].id
  }

  /** With distinct ids a lookup finds the block that is there. */
  lemma LookupFinds(blocks: seq<Block>, b: Block)
    requires Distinct(blocks) && b in blocks
    ensures Lookup(blocks, b.id) == Some(b.family)
  {
    var c := Block(b.id, Lookup(blocks, b.id).value);
    var i :| 0 <= i < |blocks| && blocks[i] == b;
    var j :| 0 <= j < |blocks| && blocks[j] == c;
  }

  /** Closing all blocks leads a bracketed rest to a bracketed whole. */
  lemma {:induction false} EndsBracketed(blocks: seq<Block>, closing: bool, rest: seq<Part>)
    requires Distinct(blocks)
    requires Bracketed(rest, {}, false) && Bracketed(rest, {}, true)
    ensures Bracketed(Ends(blocks) + rest, AsSet(blocks), closing)
    decreases |blocks|
  {
    var parts := Ends(blocks) + rest;
    if blocks == [] {
      assert parts == rest;
      assert AsSet(blocks) == {};
    } else {
      var b := blocks[0];
      EndsBracketed(blocks[1..], true, rest);
      assert parts[0] == End(b.family, b.id) && parts[1..] == Ends(blocks[1..]) + rest;
      assert AsSet(blocks) - {b} == AsSet(blocks[1..]);
      assert Block(b.id, b.family) in AsSet(blocks);
    }
  }

  /** What follows a closing run reads the same whether or not blocks just ended. */
  lemma ToolThenRest(p: Part, rest: seq<Part>)
    requires (p.Call? || p.Outcome?) && Bracketed(rest, {}, false)
    ensures Bracketed([p] + rest, {}, false) && Bracketed([p] + rest, {}, true)
  {
    assert ([p] + rest)[1..] == rest;
  }

  lemma FinishReads(reason: string)
    ensures Bracketed([FinishStep(reason), Finish(reason)], {}, false)
    ensures Bracketed([FinishStep(reason), Finish(reason)], {}, true)
  {
    assert [FinishStep(reason), Finish(reason)][1..] == [Finish(reason)];
  }

  lemma {:induction false} PlanFromBracketed(outputs: seq<Output>, blocks: seq<Block>, all: seq<Output>, request: string, reason: string)
    requires Distinct(blocks) && PlanFrom(outputs, blocks, all, request, reason).Ok?
    ensures Bracketed(PlanFrom(outputs, blocks, all, request, reason).value, AsSet(blocks), false)
    decreases |outputs|
  {
    hide Ends, Lookup, IdOf, Supported, FamilyOf, TextOf, InputOf;
    var parts := PlanFrom(outputs, blocks, all, request, reason).value;
    if outputs == [] {
      FinishReads(reason);
      EndsBracketed(blocks, false, [FinishStep(reason), Finish(reason)]);
    } else if !outputs[0].Chunk? {
      assert AsSet([]) == {};
      PlanFromBracketed(outputs[1..], [], all, request, reason);
      var rest := PlanFrom(outputs[1..], [], all, request, reason).value;
      ToolThenRest(ToolPart(outputs[0], all), rest);
      EndsBracketed(blocks, false, [ToolPart(outputs[0], all)] + rest);
      assert parts == Ends(blocks) + ([ToolPart(outputs[0], all)] + rest);
    } else {
      var id, family := IdOf(outputs[0], request), FamilyOf(outputs[0]);
      if Lookup(blocks, id).None? {
        var more := blocks + [Block(id, family)];
        assert AsSet(more) == AsSet(blocks) + {Block(id, family)};
        DistinctAppend(blocks, Block(id, family));
        PlanFromBracketed(outputs[1..], more, all, request, reason);
        var rest := PlanFrom(outputs[1..], more, all, request, reason).value;
        assert parts[1..][1..] == rest;
        assert Bracketed(parts[1..], AsSet(more), false);
      } else {
        PlanFromBracketed(outputs[1..], blocks, all, request, reason);
        assert parts[1..] == PlanFrom(outputs[1..], blocks, all, request, reason).value;
      }
    }
  }

  lemma DistinctAppend(blocks: seq<Block>, b: Block)
    requires Distinct(blocks) && Lookup(blocks, b.id).None?
    ensures Distinct(blocks + [b])
  {
    forall i | 0 <= i < |blocks| ensures blocks[i].id != b.id { assert blocks[i] in blocks; }
  }

  // ----- undoing the recorder -----

  lemma {:induction false} RecordedConcat(a: seq<Part>, b: seq<Part>)
    ensures Recorded(a + b) == Recorded(a) + Recorded(b)
    decreases |a|
  {
    hide Record;
    if a == [] {
      assert a + b == b;
    } else {
      assert (a + b)[1..] == a[1..] + b;
      RecordedConcat(a[1..], b);
    }
  }

  lemma {:induction false} EndsRecordNothing(blocks: seq<Block>)
    ensures Recorded(Ends(blocks)) == []
  {
    if blocks != [] {
      EndsRecordNothing(blocks[1..]);
      assert Ends(blocks)[1..] == Ends(blocks[1..]);
    }
  }

  lemma RecordOne(p: Part)
    ensures Recorded([p]) == Record(p)
  {
    assert [p][1..] == [];
    assert Recorded([p][1..]) == [];
  }

  function CanonicalAll(outputs: seq<Output>, request: string): (r: seq<Output>)
    ensures |r| == |outputs| && forall i :: 0 <= i < |r| ==> r[i] == Canonical(outputs[i], request)
  {
    seq(|outputs|, i requires 0 <= i < |outputs| => Canonical(outputs[i], request))
  }

  lemma {:induction false} PlanFromRecorded(outputs: seq<Output>, blocks: seq<Block>, all: seq<Output>, request: string, reason: string)
    requires PlanFrom(outputs, blocks, all, request, reason).Ok?
    ensures Recorded(PlanFrom(outputs, blocks, all, request, reason).value) == CanonicalAll(outputs, request)
    decreases |outputs|
  {
    hide Ends, Lookup, IdOf, TextOf, InputOf, Recorded;
    var parts := PlanFrom(outputs, blocks, all, request, reason).value;
    EndsRecordNothing(blocks);
    if outputs == [] {
      RecordedConcat(Ends(blocks), [FinishStep(reason), Finish(reason)]);
      RecordedConcat([FinishStep(reason)], [Finish(reason)]);
      RecordOne(FinishStep(reason));
      RecordOne(Finish(reason));
      assert [FinishStep(reason)] + [Finish(reason)] == [FinishStep(reason), Finish(reason)];
    } else {
      var o := outputs[0];
      var head, next :=
        if !o.Chunk? then [ToolPart(o, all)] else [Delta(FamilyOf(o), IdOf(o, request), TextOf(o))],
        if !o.Chunk? then []
        else if Lookup(blocks, IdOf(o, request)).None? then blocks + [Block(IdOf(o, request), FamilyOf(o))]
        else blocks;
      var before := if !o.Chunk? then Ends(blocks)
                    else if Lookup(blocks, IdOf(o, request)).None? then [Start(FamilyOf(o), IdOf(o, request))]
                    else [];
      var rest := PlanFrom(outputs[1..], next, all, request, reason).value;
      PlanFromRecorded(outputs[1..], next, all, request, reason);
      assert parts == before + (head + rest);
      RecordedConcat(before, head + rest);
      RecordedConcat(head, rest);
      RecordOne(head[0]);
      if before != [] && o.Chunk? { RecordOne(before[0]); }
      if before == [] { NothingRecorded(); }
      assert CanonicalAll(outputs, request) == [Canonical(o, request)] + CanonicalAll(outputs[1..], request);
    }
  }

  lemma NothingRecorded()
    ensures Recorded([]) == []
  {
  }

  // ----- when there is a plan -----

  /** `blocks` holds exactly the blocks of the stretch that ends before output `i`. */
  ghost predicate Tracks(outputs: seq<Output>, i: nat, blocks: seq<Block>, request: string)
    requires i <= |outputs|
  {
    && (forall b :: b in blocks ==> exists k :: Opens(outputs, k, i, b, request))
    && (forall k :: 0 <= k < i && Stretch(outputs, k, i) ==>
          Supported(outputs[k]) && BlockOf(outputs[k], request) in blocks)
  }

  /** Chunk `k` of the stretch before `i` belongs to the block. */
  predicate Opens(outputs: seq<Output>, k: int, i: nat, b: Block, request: string)
    requires i <= |outputs|
  {
    0 <= k < i && Stretch(outputs, k, i) && Supported(outputs[k]) && b == BlockOf(outputs[k], request)
  }

  function BlockOf(o: Output, request: string): Block
    requires Supported(o)
  {
    Block(IdOf(o, request), FamilyOf(o))
  }

  lemma {:induction false} PlansIffPlannable(outputs: seq<Output>, i: nat, blocks: seq<Block>, request: string, reason: string)
    requires i <= |outputs| && Distinct(blocks) && Tracks(outputs, i, blocks, request)
    requires PlannableTo(outputs, i, request)
    ensures PlanFrom(outputs[i..], blocks, outputs, request, reason).Ok? <==> Plannable(outputs, request)
    decreases |outputs| - i
  {
    hide Ends, IdOf, FamilyOf, Lookup, TextOf, InputOf, Supported, Tracks, Distinct, PlannableTo;
    if i == |outputs| {
      assert outputs[i..] == [];
    } else {
      var o := outputs[i];
      assert outputs[i..][0] == o && outputs[i..][1..] == outputs[i + 1..];
      if !o.Chunk? {
        ToolExtends(outputs, i, request);
        PlansIffPlannable(outputs, i + 1, [], request, reason);
      } else if !Supported(o) {
        UnsupportedIsNotPlannable(outputs, i, request);
      } else {
        var b := BlockOf(o, request);
        if Lookup(blocks, b.id).None? {
          DistinctAppend(blocks, b);
          ChunkExtends(outputs, i, blocks, blocks + [b], request);
          PlansIffPlannable(outputs, i + 1, blocks + [b], request, reason);
        } else if Lookup(blocks, b.id).value == b.family {
          ChunkExtends(outputs, i, blocks, blocks, request);
          PlansIffPlannable(outputs, i + 1, blocks, request, reason);
        } else {
          ClashIsNotPlannable(outputs, i, Block(b.id, Lookup(blocks, b.id).value), blocks, request);
        }
      }
    }
  }

  lemma UnsupportedIsNotPlannable(outputs: seq<Output>, i: nat, request: string)
    requires i < |outputs| && outputs[i].Chunk? && !Supported(outputs[i])
    ensures !Plannable(outputs, request)
  {
  }

  lemma ToolExtends(outputs: seq<Output>, i: nat, request: string)
    requires i < |outputs| && !outputs[i].Chunk? && PlannableTo(outputs, i, request)
    ensures PlannableTo(outputs, i + 1, request) && Tracks(outputs, i + 1, [], request) && Distinct([])
  {
    hide IdOf, FamilyOf, Supported, Compatible;
    forall j, k | 0 <= j < k < i + 1 && Stretch(outputs, j, k + 1) ensures Compatible(outputs[j], outputs[k], request) {
      assert outputs[k].Chunk?;
    }
  }

  lemma ChunkExtends(outputs: seq<Output>, i: nat, blocks: seq<Block>, more: seq<Block>, request: string)
    requires i < |outputs| && Supported(outputs[i]) && PlannableTo(outputs, i, request)
    requires Tracks(outputs, i, blocks, request)
    requires Distinct(more) && (more == blocks || more == blocks + [BlockOf(outputs[i], request)])
    requires BlockOf(outputs[i], request) in more
    ensures PlannableTo(outputs, i + 1, request) && Tracks(outputs, i + 1, more, request)
  {
    hide IdOf, FamilyOf, PlannableTo, Tracks, Supported;
    ChunkTracks(outputs, i, blocks, more, request);
    forall j | 0 <= j < i && Stretch(outputs, j, i) ensures Compatible(outputs[j], outputs[i], request) {
      TrackedCompatible(outputs, i, j, blocks, more, request);
    }
    ChunkPlannable(outputs, i, request);
  }

  lemma ChunkPlannable(outputs: seq<Output>, i: nat, request: string)
    requires i < |outputs| && Supported(outputs[i]) && PlannableTo(outputs, i, request)
    requires forall j :: 0 <= j < i && Stretch(outputs, j, i) ==> Compatible(outputs[j], outputs[i], request)
    ensures PlannableTo(outputs, i + 1, request)
  {
    hide Compatible, Supported;
    forall j, k | 0 <= j < k < i + 1 && Stretch(outputs, j, k + 1) ensures Compatible(outputs[j], outputs[k], request) {
      if k == i { assert Stretch(outputs, j, i); }
    }
  }

  lemma TrackedCompatible(outputs: seq<Output>, i: nat, j: nat, blocks: seq<Block>, more: seq<Block>, request: string)
    requires j < i < |outputs| && Stretch(outputs, j, i) && Supported(outputs[i]) && Tracks(outputs, i, blocks, request)
    requires Distinct(more) && blocks <= more && BlockOf(outputs[i], request) in more
    ensures Compatible(outputs[j], outputs[i], request)
  {
    hide IdOf, FamilyOf, Distinct;
    if IdOf(outputs[j], request) == IdOf(outputs[i], request) {
      SameBlocks(more, BlockOf(outputs[j], request), BlockOf(outputs[i], request));
    }
  }

  lemma ChunkTracks(outputs: seq<Output>, i: nat, blocks: seq<Block>, more: seq<Block>, request: string)
    requires i < |outputs| && Supported(outputs[i]) && Tracks(outputs, i, blocks, request)
    requires more == blocks || more == blocks + [BlockOf(outputs[i], request)]
    requires BlockOf(outputs[i], request) in more
    ensures Tracks(outputs, i + 1, more, request)
  {
    hide IdOf, FamilyOf, BlockOf;
    var next := i + 1;
    forall x | x in more ensures exists k :: Opens(outputs, k, next, x, request) {
      if x in blocks {
        var k :| Opens(outputs, k, i, x, request);
        assert Opens(outputs, k, next, x, request);
      } else {
        assert Opens(outputs, i, next, x, request);
      }
    }
    forall k | 0 <= k < next && Stretch(outputs, k, next) ensures Supported(outputs[k]) && BlockOf(outputs[k], request) in more {
      if k < i { assert Stretch(outputs, k, i); }
    }
  }

  lemma SameBlocks(blocks: seq<Block>, x: Block, y: Block)
    requires Distinct(blocks) && x in blocks && y in blocks && x.id == y.id
    ensures x == y
  {
    LookupFinds(blocks, x);
    LookupFinds(blocks, y);
  }

  lemma ClashIsNotPlannable(outputs: seq<Output>, i: nat, b: Block, blocks: seq<Block>, request: string)
    requires i < |outputs| && Supported(outputs[i]) && Tracks(outputs, i, blocks, request) && b in blocks
    requires b.id == IdOf(outputs[i], request) && b.family != FamilyOf(outputs[i])
    ensures !Plannable(outputs, request)
  {
    hide IdOf, FamilyOf;
    var k :| Opens(outputs, k, i, b, request);
    assert Stretch(outputs, k, i + 1) && !Compatible(outputs[k], outputs[i], request);
  }

  // ----- the theorems -----

  /**
   The plan of a request exists exactly when its outputs are plannable. It is then bracketed, and
   recording it gives back the recorded outputs in order, with the missing ids and deltas of chunks
   filled in; so it undoes the recorder exactly when every chunk carries a non-empty id and a delta.
   */
  lemma PlanUndoesRecorder(outputs: seq<Output>, request: string, reason: string)
    ensures Plan(outputs, request, reason).Ok? <==> Plannable(outputs, request)
    ensures Plan(outputs, request, reason).Ok? ==>
      && Bracketed(Plan(outputs, request, reason).value, {}, false)
      && Recorded(Plan(outputs, request, reason).value) == CanonicalAll(outputs, request)
      && (Recorded(Plan(outputs, request, reason).value) == outputs <==> forall o :: o in outputs ==> IsCanonical(o))
  {
    hide PlanFrom, IdOf, Recorded, Bracketed;
    assert outputs[0..] == outputs;
    assert AsSet([]) == {};
    PlansIffPlannable(outputs, 0, [], request, reason);
    if Plan(outputs, request, reason).Ok? {
      PlanFromBracketed(outputs, [], outputs, request, reason);
      PlanFromRecorded(outputs, [], outputs, request, reason);
      SameIffCanonical(outputs, request);
    }
  }

  lemma SameIffCanonical(outputs: seq<Output>, request: string)
    requires Plannable(outputs, request)
    ensures CanonicalAll(outputs, request) == outputs <==> forall o :: o in outputs ==> IsCanonical(o)
  {
    hide IdOf;
    forall i | 0 <= i < |outputs|
      ensures CanonicalAll(outputs, request)[i] == outputs[i] <==> IsCanonical(outputs[i])
    {
      CanonicalFixed(outputs[i], request);
    }
    if CanonicalAll(outputs, request) == outputs {
      forall o | o in outputs ensures IsCanonical(o) {
        var i :| 0 <= i < |outputs| && outputs[i] == o;
        assert CanonicalAll(outputs, request)[i] == outputs[i];
      }
    }
  }

  lemma CanonicalFixed(o: Output, request: string)
    requires o.Chunk? ==> Supported(o)
    ensures Canonical(o, request) == o <==> IsCanonical(o)
  {
  }

  /** Block ids of a stream as a provider must send them to be recorded with an id. */
  predicate NamedBlocks(parts: seq<Part>) {
    forall p :: p in parts && p.Delta? ==> p.id != ""
  }

  /** Every open block of the compiler is open in the stream that was recorded. */
  ghost predicate Within(blocks: seq<Block>, open: set<Block>) {
    forall b :: b in blocks ==> b in open
  }

  ghost predicate UniqueIds(open: set<Block>) {
    forall a, b :: a in open && b in open && a.id == b.id ==> a == b
  }

  lemma {:induction false} RecordedPlans(parts: seq<Part>, open: set<Block>, closing: bool, blocks: seq<Block>,
                                         all: seq<Output>, request: string, reason: string)
    requires Bracketed(parts, open, closing) && NamedBlocks(parts) && Distinct(blocks)
    requires UniqueIds(open) && (Within(blocks, open) || closing)
    ensures PlanFrom(Recorded(parts), blocks, all, request, reason).Ok?
    decreases |parts|
  {
    hide Ends, TextOf, InputOf, Recorded;
    var p := parts[0];
    RecordedHead(parts);
    forall q | q in parts[1..] && q.Delta? ensures q.id != "" { assert q in parts; }
    assert p in parts;
    match p {
      case Start(f, id) => RecordedPlans(parts[1..], open + {Block(id, f)}, false, blocks, all, request, reason);
      case End(f, id) => RecordedPlans(parts[1..], open - {Block(id, f)}, true, blocks, all, request, reason);
      case FinishStep(r) => RecordOne(Finish(r));
      case Delta(f, id, text) =>
        if Lookup(blocks, id).None? {
          DistinctAppend(blocks, Block(id, f));
          RecordedPlans(parts[1..], open, false, blocks + [Block(id, f)], all, request, reason);
        } else {
          RecordedPlans(parts[1..], open, false, blocks, all, request, reason);
        }
      case Call(_, _, _) => RecordedPlans(parts[1..], open, false, [], all, request, reason);
      case Outcome(_, _, _, _) => RecordedPlans(parts[1..], open, false, [], all, request, reason);
      case Finish(_) =>
    }
  }

  lemma RecordedHead(parts: seq<Part>)
    requires parts != []
    ensures Record(parts[0]) == [] ==> Recorded(parts) == Recorded(parts[1..])
    ensures Record(parts[0]) != [] ==>
      Recorded(parts) != [] && Recorded(parts)[0] == Record(parts[0])[0] && Recorded(parts)[1..] == Recorded(parts[1..])
  {
    hide Recorded;
    assert Recorded(parts) == Record(parts[0]) + Recorded(parts[1..]) by { RecordedUnfold(parts); }
  }

  lemma RecordedUnfold(parts: seq<Part>)
    requires parts != []
    ensures Recorded(parts) == Record(parts[0]) + Recorded(parts[1..])
  {
  }

  /** Replaying what was recorded of a bracketed stream records the same again. */
  lemma ReplayOfRecording(parts: seq<Part>, request: string, reason: string)
    requires Bracketed(parts, {}, false) && NamedBlocks(parts)
    ensures Plan(Recorded(parts), request, reason).Ok?
    ensures Recorded(Plan(Recorded(parts), request, reason).value) == Recorded(parts)
  {
    hide PlanFrom, Bracketed;
    RecordedPlans(parts, {}, false, [], Recorded(parts), request, reason);
    PlanUndoesRecorder(Recorded(parts), request, reason);
    RecordedCanonical(parts);
  }

  lemma {:induction false} RecordedCanonical(parts: seq<Part>)
    requires NamedBlocks(parts)
    ensures forall o :: o in Recorded(parts) ==> IsCanonical(o)
  {
    if parts != [] {
      assert parts[0] in parts;
      forall q | q in parts[1..] && q.Delta? ensures q.id != "" { assert q in parts; }
      RecordedCanonical(parts[1..]);
    }
  }

  lemma PlanOneChunk(c: Output, all: seq<Output>, request: string, reason: string)
    requires Supported(c)
    ensures var id, f := IdOf(c, request), FamilyOf(c);
      PlanFrom([c], [], all, request, reason) ==
        Ok([Start(f, id), Delta(f, id, TextOf(c)), End(f, id), FinishStep(reason), Finish(reason)])
  {
    hide IdOf, FamilyOf, TextOf;
    var b := Block(IdOf(c, request), FamilyOf(c));
    assert [c][1..] == [] && [] + [b] == [b];
    EndsOne(b);
    assert PlanFrom([c][1..], [b], all, request, reason) == Ok(Ends([b]) + [FinishStep(reason), Finish(reason)]);
    assert PlanFrom([c], [], all, request, reason) ==
      Prepend([Start(b.family, b.id), Delta(b.family, b.id, TextOf(c))], PlanFrom([c][1..], [b], all, request, reason));
    assert [Start(b.family, b.id), Delta(b.family, b.id, TextOf(c))] + (Ends([b]) + [FinishStep(reason), Finish(reason)]) ==
      [Start(b.family, b.id), Delta(b.family, b.id, TextOf(c)), End(b.family, b.id), FinishStep(reason), Finish(reason)];
  }

  lemma EndsOne(b: Block)
    ensures Ends([b]) == [End(b.family, b.id)]
  {
    assert [b][1..] == [];
    assert Ends([b][1..]) == [];
  }

  /** A tool output between two chunks of one id closes the block and opens it a second time. */
  lemma ReopensAfterTool(c: Output, tool: Output, request: string, reason: string)
    requires Supported(c) && tool.ToolCall?
    ensures var id, f := IdOf(c, request), FamilyOf(c);
      var shown := [Start(f, id), Delta(f, id, TextOf(c)), End(f, id)];
      Plan([c, tool, c], request, reason) ==
        Ok(shown + [Call(tool.callId, tool.name, tool.input)] + shown + [FinishStep(reason), Finish(reason)])
  {
    hide IdOf, FamilyOf, TextOf, InputOf;
    var all := [c, tool, c];
    var b := Block(IdOf(c, request), FamilyOf(c));
    EndsOne(b);
    PlanOneChunk(c, all, request, reason);
    assert all[1..] == [tool, c] && [tool, c][1..] == [c] && [] + [b] == [b];
    assert PlanFrom([tool, c], [b], all, request, reason) ==
      Prepend(Ends([b]) + [ToolPart(tool, all)], PlanFrom([c], [], all, request, reason));
    assert PlanFrom(all, [], all, request, reason) ==
      Prepend([Start(b.family, b.id), Delta(b.family, b.id, TextOf(c))], PlanFrom([tool, c], [b], all, request, reason));
    var shown := [Start(b.family, b.id), Delta(b.family, b.id, TextOf(c)), End(b.family, b.id)];
    var rest := shown + [FinishStep(reason), Finish(reason)];
    assert rest == PlanFrom([c], [], all, request, reason).value;
    assert [Start(b.family, b.id), Delta(b.family, b.id, TextOf(c))] + (Ends([b]) + [ToolPart(tool, all)] + rest) ==
      shown + [Call(tool.callId, tool.name, tool.input)] + shown + [FinishStep(reason), Finish(reason)];
  }

  // ----- what a replayed result and the end of the stream carry -----

  /** The last call of that id among the outputs had this input. */
  ghost predicate LastInput(outputs: seq<Output>, callId: string, input: string) {
    exists k :: 0 <= k < |outputs| && CallHas(outputs, k, callId, input)
  }

  ghost predicate CallHas(outputs: seq<Output>, k: nat, callId: string, input: string)
    requires k < |outputs|
  {
    && outputs[k].ToolCall? && outputs[k].callId == callId && outputs[k].input == input
    && forall j :: k < j < |outputs| && outputs[j].ToolCall? ==> outputs[j].callId != callId
  }

  lemma {:induction false} InputIsLast(outputs: seq<Output>, callId: string)
    ensures InputOf(outputs, callId).Some? ==> LastInput(outputs, callId, InputOf(outputs, callId).value)
    ensures InputOf(outputs, callId).None? ==> forall o :: o in outputs && o.ToolCall? ==> o.callId != callId
  {
    if outputs != [] {
      var n := |outputs| - 1;
      if outputs[n].ToolCall? && outputs[n].callId == callId {
        assert CallHas(outputs, n, callId, outputs[n].input);
      } else {
        InputIsLast(outputs[..n], callId);
        if InputOf(outputs[..n], callId).Some? {
          var input := InputOf(outputs[..n], callId).value;
          var k :| 0 <= k < n && CallHas(outputs[..n], k, callId, input);
          forall j | k < j < |outputs| && outputs[j].ToolCall? ensures outputs[j].callId != callId {
            if j < n { assert outputs[..n][j] == outputs[j]; }
          }
          assert CallHas(outputs, k, callId, input);
        }
      }
    }
  }

  ghost predicate CarriesInputs(parts: seq<Part>, all: seq<Output>) {
    forall p :: p in parts && p.Outcome? ==> p.given == InputOf(all, p.callId)
  }

  lemma {:induction false} EndsAreEnds(blocks: seq<Block>)
    ensures forall p :: p in Ends(blocks) ==> p.End?
  {
    if blocks != [] { EndsAreEnds(blocks[1..]); }
  }

  lemma {:induction false} PlanCarries(outputs: seq<Output>, blocks: seq<Block>, all: seq<Output>, request: string, reason: string)
    requires PlanFrom(outputs, blocks, all, request, reason).Ok?
    ensures var parts := PlanFrom(outputs, blocks, all, request, reason).value;
      && CarriesInputs(parts, all)
      && |parts| >= 2 && parts[|parts| - 2..] == [FinishStep(reason), Finish(reason)]
    decreases |outputs|
  {
    hide InputOf, Lookup, IdOf, TextOf, Ends, Supported, FamilyOf;
    EndsAreEnds(blocks);
    var parts := PlanFrom(outputs, blocks, all, request, reason).value;
    if outputs == [] {
      assert parts == Ends(blocks) + [FinishStep(reason), Finish(reason)];
    } else {
      var o := outputs[0];
      if !o.Chunk? {
        PlanCarries(outputs[1..], [], all, request, reason);
      } else if Lookup(blocks, IdOf(o, request)).None? {
        PlanCarries(outputs[1..], blocks + [Block(IdOf(o, request), FamilyOf(o))], all, request, reason);
      } else {
        PlanCarries(outputs[1..], blocks, all, request, reason);
      }
    }
  }

  /**
   A replayed result is checked against the input of the last recorded call of its id, wherever that
   stands, and against nothing exactly when no such call was recorded; and the stream ends with the
   finish reason of the request.
   */
  lemma ReplayKnowsInputs(outputs: seq<Output>, request: string, reason: string)
    requires Plannable(outputs, request)
    ensures Plan(outputs, request, reason).Ok?
    ensures var parts := Plan(outputs, request, reason).value;
      && (forall p :: p in parts && p.Outcome? && p.given.Some? ==> LastInput(outputs, p.callId, p.given.value))
      && (forall p :: p in parts && p.Outcome? ==>
            (p.given.None? <==> forall o :: o in outputs && o.ToolCall? ==> o.callId != p.callId))
      && |parts| >= 2 && parts[|parts| - 2..] == [FinishStep(reason), Finish(reason)]
  {
    hide PlanFrom, InputOf, LastInput, Plannable, Bracketed, Recorded;
    PlanUndoesRecorder(outputs, request, reason);
    PlanCarries(outputs, [], outputs, request, reason);
    var parts := Plan(outputs, request, reason).value;
    forall p | p in parts && p.Outcome?
      ensures p.given.Some? ==> LastInput(outputs, p.callId, p.given.value)
      ensures p.given.None? <==> forall o :: o in outputs && o.ToolCall? ==> o.callId != p.callId
    {
      InputIsLast(outputs, p.callId);
      if p.given.Some? { LastInputExists(outputs, p.callId, p.given.value); }
    }
  }

  lemma LastInputExists(outputs: seq<Output>, callId: string, input: string)
    requires LastInput(outputs, callId, input)
    ensures exists o :: o in outputs && o.ToolCall? && o.callId == callId
  {
    var k :| 0 <= k < |outputs| && CallHas(outputs, k, callId, input);
    assert outputs[k] in outputs;
  }

  /**
   What recording the replay gives for each output: a tool output as it was; a chunk under its own id, or
   under its kind and the request where it had none, and with its delta, or none where that was missing.
   */
  lemma ReplayFillsIn(outputs: seq<Output>, request: string, reason: string, i: nat)
    requires Plannable(outputs, request) && i < |outputs|
    ensures Plan(outputs, request, reason).Ok?
    ensures var again, o := Recorded(Plan(outputs, request, reason).value), outputs[i];
      && |again| == |outputs|
      && (!o.Chunk? ==> again[i] == o)
      && (o.Chunk? ==> again[i].Chunk? && again[i].kind == o.kind && o.kind.Some? && again[i].id.Some? && again[i].delta.Some?)
      && (o.Chunk? && o.id.Some? && o.id.value != "" ==> again[i].id == o.id)
      && (o.Chunk? && (o.id.None? || o.id.value == "") ==> again[i].id.value == o.kind.value + ":" + request)
      && (o.Chunk? ==> again[i].delta.value == if o.delta.Some? then o.delta.value else "")
  {
    hide PlanFrom, Recorded, Bracketed;
    PlanUndoesRecorder(outputs, request, reason);
    assert CanonicalAll(outputs, request)[i] == Canonical(outputs[i], request);
    assert outputs[i].Chunk? ==> Supported(outputs[i]);
  }
}
