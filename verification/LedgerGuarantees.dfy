/** What every run of the deployment guarantees about tool effects. */
module LedgerGuarantees {
  import opened Values
  import opened LedgerModel
  import opened ApprovalModel
  import opened ExecutionProtocol
  import opened LedgerInvariant
  import D = Deployment

  function CellIn(w: D.World, slot: Slot): Cell {
    CellAt(w.ledger.core, slot)
  }

  lemma {:induction false} CellHolds(modes: Modes, steps: seq<D.Step>, slot: Slot)
    ensures var w := D.Run(modes, D.INITIAL, steps);
            CellOk(modes, w.business.rows.approvals, slot, CellIn(w, slot)) && UniqueIds(w.ledger.core.rows)
  {
    D.Reachable(modes, steps);
  }

  /** At most one effect per claim; at most one effect at all for a tool without recovery capability. */
  lemma {:induction false} AtMostOnce(modes: Modes, steps: seq<D.Step>, slot: Slot)
    ensures var cell := CellIn(D.Run(modes, D.INITIAL, steps), slot);
            && |cell.invoked| <= |cell.issued|
            && (cell.row.Some? && modes(cell.row.value.toolName).NONE? ==> |cell.invoked| <= 1)
            && (cell.row.None? ==> |cell.invoked| == 0)
  {
    var cell := CellIn(D.Run(modes, D.INITIAL, steps), slot);
    CellHolds(modes, steps, slot);
    if cell.row.Some? {
      var gens := Generations(cell.invoked);
      forall g | g in gens ensures g in cell.issued {
        var i :| 0 <= i < |gens| && gens[i] == g;
        assert InvocationOk(modes, cell.row.value, cell.issued, cell.invoked[i]);
      }
      DistinctIsNoLonger(gens, cell.issued);
    }
  }

  /** The register that callers see: empty, or set for good to a content or to a known failure. */
  datatype Register = Unset | Set(content: Option<string>)

  function RegisterOf(cell: Cell): Register {
    if cell.row.None? then Unset
    else match cell.row.value.status
      case SUCCEEDED => Set(cell.row.value.result)
      case FAILED => Set(None)
      case _ => Unset
  }

  /** Whatever is returned, by whichever actor, is the stored content; so all returns agree. */
  lemma {:induction false} ReturnsAgree(modes: Modes, steps: seq<D.Step>, slot: Slot, x: string, y: string)
    requires x in CellIn(D.Run(modes, D.INITIAL, steps), slot).returned
    requires y in CellIn(D.Run(modes, D.INITIAL, steps), slot).returned
    ensures x == y && RegisterOf(CellIn(D.Run(modes, D.INITIAL, steps), slot)) == Set(Some(x))
  {
    CellHolds(modes, steps, slot);
  }

  /** The ledger refines a write-once register: once set, it never changes, and neither does the row. */
  lemma {:induction false} WriteOnce(modes: Modes, steps: seq<D.Step>, more: seq<D.Step>, slot: Slot)
    requires RegisterOf(CellIn(D.Run(modes, D.INITIAL, steps), slot)).Set?
    ensures CellIn(D.Run(modes, D.INITIAL, steps + more), slot).row == CellIn(D.Run(modes, D.INITIAL, steps), slot).row
    ensures RegisterOf(CellIn(D.Run(modes, D.INITIAL, steps + more), slot)) ==
              RegisterOf(CellIn(D.Run(modes, D.INITIAL, steps), slot))
  {
    var w := D.Run(modes, D.INITIAL, steps);
    D.Reachable(modes, steps);
    D.RunConcat(modes, D.INITIAL, steps, more);
    D.RunKeeps(modes, w, more);
    assert CellGrows(CellIn(w, slot), CellIn(D.Run(modes, w, more), slot));
  }

  /** Claims advance strictly, and no generation receives two terminal writes. */
  lemma {:induction false} GenerationsFence(modes: Modes, steps: seq<D.Step>, slot: Slot)
    ensures var cell := CellIn(D.Run(modes, D.INITIAL, steps), slot);
            && Increasing(cell.issued)
            && Distinct(cell.settled)
            && (forall t | t in cell.settled :: t in cell.issued)
            && |cell.settled| <= |cell.issued|
  {
    var w := D.Run(modes, D.INITIAL, steps);
    CellHolds(modes, steps, slot);
    CellFences(modes, w.business.rows.approvals, slot, CellIn(w, slot));
  }

  lemma CellFences(modes: Modes, approvals: Approvals, slot: Slot, cell: Cell)
    requires CellOk(modes, approvals, slot, cell)
    ensures Increasing(cell.issued) && Distinct(cell.settled)
    ensures (forall t | t in cell.settled :: t in cell.issued) && |cell.settled| <= |cell.issued|
  {
    if cell.row.Some? {
      forall t | t in cell.settled ensures t in cell.issued { }
      DistinctIsNoLonger(cell.settled, cell.issued);
    }
  }

  /** A writer whose generation was superseded by a later claim is refused in every later state. */
  lemma {:induction false} SupersededForever(modes: Modes, steps: seq<D.Step>, more: seq<D.Step>,
                                             candidate: ToolExecution, generation: Time, fault: Fault)
    requires var cell := CellIn(D.Run(modes, D.INITIAL, steps), candidate.SlotOf());
             cell.issued != [] && generation < Last(cell.issued)
    ensures var rows := D.Run(modes, D.INITIAL, steps + more).ledger.core.rows;
            && FinishedTable(rows, candidate, Some(generation), fault) == rows
            && FinishError(rows, candidate, Some(generation), fault).Some?
  {
    var slot := candidate.SlotOf();
    var w := D.Run(modes, D.INITIAL, steps);
    var v := D.Run(modes, w, more);
    D.Reachable(modes, steps);
    D.RunConcat(modes, D.INITIAL, steps, more);
    D.RunKeeps(modes, w, more);
    assert CellGrows(CellIn(w, slot), CellIn(v, slot)) && CellOk(modes, v.business.rows.approvals, slot,
                                                                 CellIn(v, slot));
    LaterClaimHolds(modes, v.business.rows.approvals, slot, CellIn(w, slot), CellIn(v, slot), generation);
    RefusedWithout(v.ledger.core.rows, candidate, generation, fault);
  }

  /** A generation that a claim has overtaken stays behind the row. */
  lemma LaterClaimHolds(modes: Modes, approvals: Approvals, slot: Slot, x: Cell, y: Cell, generation: Time)
    requires CellGrows(x, y) && CellOk(modes, approvals, slot, y) && x.issued != [] && generation < Last(x.issued)
    ensures y.row.Some? ==> generation < y.row.value.updatedAt
  {
    assert y.issued[|x.issued| - 1] == Last(x.issued);
  }

  lemma RefusedWithout(rows: Ledger, candidate: ToolExecution, generation: Time, fault: Fault)
    requires candidate.SlotOf() in rows ==> generation < rows[candidate.SlotOf()].updatedAt
    ensures FinishedTable(rows, candidate, Some(generation), fault) == rows
    ensures FinishError(rows, candidate, Some(generation), fault).Some?
  {
  }

  /** Every row and every effect carries a persisted APPROVED decision on exactly that call. */
  lemma {:induction false} AuthorizedEffects(modes: Modes, steps: seq<D.Step>, slot: Slot)
    ensures var w := D.Run(modes, D.INITIAL, steps);
            var cell := CellIn(w, slot);
            && (cell.row.Some? ==>
                  var row := cell.row.value;
                  row.SlotOf() == slot && Authorizes(w.business.rows.approvals, row.approvalId, row.taskId, row.Call()))
            && (forall i | 0 <= i < |cell.invoked| ::
                  && cell.invoked[i].call.id == slot.callId
                  && Authorizes(w.business.rows.approvals, cell.invoked[i].approval, slot.task, cell.invoked[i].call))
  {
    CellHolds(modes, steps, slot);
    var cell := CellIn(D.Run(modes, D.INITIAL, steps), slot);
    forall i | 0 <= i < |cell.invoked|
      ensures cell.row.Some? && InvocationOk(modes, cell.row.value, cell.issued, cell.invoked[i])
    {
    }
  }

  /** A rejected question never has a row or an effect, before or after the rejection. */
  lemma {:induction false} RejectedHasNoEffect(modes: Modes, steps: seq<D.Step>, slot: Slot, id: ApprovalId)
    requires var approvals := D.Run(modes, D.INITIAL, steps).business.rows.approvals;
             id in approvals && approvals[id].status.REJECTED?
    ensures var cell := CellIn(D.Run(modes, D.INITIAL, steps), slot);
            && (cell.row.Some? ==> cell.row.value.approvalId != id)
            && (forall i | 0 <= i < |cell.invoked| :: cell.invoked[i].approval != id)
  {
    AuthorizedEffects(modes, steps, slot);
  }

  /** All EXTERNAL_KEY calls for one slot carry the key of its row, and no other slot uses that key. */
  lemma {:induction false} StableExternalKey(modes: Modes, steps: seq<D.Step>, slot: Slot, other: Slot, i: nat, j: nat)
    requires var w := D.Run(modes, D.INITIAL, steps);
             && i < |CellIn(w, slot).invoked| && CellIn(w, slot).invoked[i].key.Some?
             && j < |CellIn(w, other).invoked| && CellIn(w, other).invoked[j].key.Some?
    ensures var w := D.Run(modes, D.INITIAL, steps);
            CellIn(w, slot).invoked[i].key == CellIn(w, other).invoked[j].key <==> slot == other
  {
    var w := D.Run(modes, D.INITIAL, steps);
    CellHolds(modes, steps, slot);
    CellHolds(modes, steps, other);
    var x, y := CellIn(w, slot), CellIn(w, other);
    assert InvocationOk(modes, x.row.value, x.issued, x.invoked[i]);
    assert InvocationOk(modes, y.row.value, y.issued, y.invoked[j]);
    assert w.ledger.core.rows[slot] == x.row.value && w.ledger.core.rows[other] == y.row.value;
  }

  /** A tool in EXTERNAL_KEY mode is always told its key, and no other tool ever is. */
  lemma {:induction false} KeyedExactly(modes: Modes, steps: seq<D.Step>, slot: Slot, i: nat)
    requires i < |CellIn(D.Run(modes, D.INITIAL, steps), slot).invoked|
    ensures var call := CellIn(D.Run(modes, D.INITIAL, steps), slot).invoked[i];
            call.key.Some? <==> modes(call.call.name).EXTERNAL_KEY?
  {
    CellHolds(modes, steps, slot);
    var cell := CellIn(D.Run(modes, D.INITIAL, steps), slot);
    assert InvocationOk(modes, cell.row.value, cell.issued, cell.invoked[i]);
  }
}
