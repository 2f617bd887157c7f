/** When a logo upload writes over a file it does not know of: exactly when another upload for the same
    shop is written between its arrival and its own write. */
module LogoRaces {
  import opened Images

  /** The step is a write, taken in this state, of the column. */
  predicate WritesTo(s: State, step: Step, slot: Slot) {
    step.Write? && Enabled(s, step) && SlotOf(s.requests[step.r].job, step.id) == slot
  }

  /** Some step of a stretch of a run wrote the column. */
  predicate Overtaken(slots: map<Slot, Path>, before: seq<Step>, more: seq<Step>, slot: Slot) {
    exists i :: 0 <= i < |more| && WritesTo(Run(slots, before + more[..i]), more[i], slot)
  }

  /** A path no request that had settled by the time of s0 could have written. */
  predicate Newer(s0: State, path: Path) {
    path.Image? && (path.req >= s0.next || !Settled(s0.requests, path.req))
  }

  /** What request r, which read `former` on its arrival in s0, finds later. */
  predicate Stands(s0: State, s: State, r: ReqId, slot: Slot, former: Path, overtaken: bool) {
    && slot in s.slots
    && (if overtaken then Newer(s0, s.slots[slot]) else s.slots[slot] == former)
    && r < s.next
    && (r in s.requests ==> s.requests[r].job.NewLogo? && Logo(s.requests[r].job.shop) == slot)
    && (r in s.requests && s.requests[r].phase.Seen? ==> s.requests[r].phase == Seen(former))
  }

  lemma SettledStays(s: State, step: Step, n: ReqId)
    requires n < s.next && Settled(s.requests, n)
    ensures n < Next(s, step).next && Settled(Next(s, step).requests, n)
  {
  }

  /** No request unsettles, so whoever is unsettled later was so before, or came later. */
  ghost predicate Grown(s0: State, s: State) {
    s0.next <= s.next && forall n: ReqId :: n < s0.next && Settled(s0.requests, n) ==> Settled(s.requests, n)
  }

  lemma GrownStays(s0: State, s: State, step: Step)
    requires Grown(s0, s)
    ensures Grown(s0, Next(s, step))
  {
    hide Settled, Next;
    forall n: ReqId | n < s0.next && Settled(s0.requests, n) ensures Settled(Next(s, step).requests, n) {
      SettledStays(s, step, n);
    }
    NextGrows(s, step);
  }

  lemma NextGrows(s: State, step: Step)
    ensures s.next <= Next(s, step).next
  {
  }

  lemma WriteStands(s0: State, s: State, step: Step, r: ReqId, slot: Slot, former: Path, overtaken: bool)
    requires Grown(s0, s) && Stands(s0, s, r, slot, former, overtaken) && WritesTo(s, step, slot)
    ensures Stands(s0, Next(s, step), r, slot, former, true)
  {
    assert !Settled(s.requests, step.r);
  }

  lemma OtherStands(s0: State, s: State, step: Step, r: ReqId, slot: Slot, former: Path, overtaken: bool)
    requires Stands(s0, s, r, slot, former, overtaken) && !WritesTo(s, step, slot)
    ensures Stands(s0, Next(s, step), r, slot, former, overtaken)
  {
    hide Settled;
  }

  lemma {:induction false} OvertakenSplit(slots: map<Slot, Path>, before: seq<Step>, more: seq<Step>, slot: Slot)
    requires more != []
    ensures var most, step := more[..|more| - 1], more[|more| - 1];
            Overtaken(slots, before, more, slot) <==>
                Overtaken(slots, before, most, slot) || WritesTo(Run(slots, before + most), step, slot)
  {
    hide Run, WritesTo;
    var most := more[..|more| - 1];
    assert forall i :: 0 <= i < |most| ==> most[i] == more[i] && most[..i] == more[..i];
    assert more[..|most|] == most;
  }

  lemma {:induction false} RunStands(slots: map<Slot, Path>, before: seq<Step>, more: seq<Step>, r: ReqId, slot: Slot,
      former: Path)
    requires var s0 := Run(slots, before); Stands(s0, s0, r, slot, former, false)
    ensures var s0 := Run(slots, before);
            var s := Run(slots, before + more);
            Grown(s0, s) && Stands(s0, s, r, slot, former, Overtaken(slots, before, more, slot))
  {
    var s0 := Run(slots, before);
    if more == [] {
      assert before + more == before;
    } else {
      var most, step := more[..|more| - 1], more[|more| - 1];
      assert (before + more)[..|before + more| - 1] == before + most;
      RunStands(slots, before, most, r, slot, former);
      OvertakenSplit(slots, before, more, slot);
      var s := Run(slots, before + most);
      hide Next, Overtaken, Stands, WritesTo, Grown;
      GrownStays(s0, s, step);
      if WritesTo(s, step, slot) {
        WriteStands(s0, s, step, r, slot, former, Overtaken(slots, before, most, slot));
      } else {
        OtherStands(s0, s, step, r, slot, former, Overtaken(slots, before, most, slot));
      }
    }
  }

  lemma ArrivalStands(s: State, shop: nat)
    requires Inv(s) && Logo(shop) in s.slots
    ensures var t := Next(s, Arrive(NewLogo(shop)));
            && Stands(t, t, s.next, Logo(shop), s.slots[Logo(shop)], false)
            && (s.slots[Logo(shop)].Image? ==>
                  s.slots[Logo(shop)].req < t.next && Settled(t.requests, s.slots[Logo(shop)].req))
  {
    assert RefsOk(s);
  }

  /** A logo upload leaves litter exactly when another upload for the shop was written since it arrived. */
  lemma LogoLittersIffOvertaken(slots: map<Slot, Path>, steps: seq<Step>, shop: nat, more: seq<Step>, id: nat)
    requires Fresh(slots) && Logo(shop) in Run(slots, steps).slots
    requires var r := Run(slots, steps).next;
             Enabled(Run(slots, steps + [Arrive(NewLogo(shop))] + more), Write(r, id))
    ensures var r := Run(slots, steps).next;
            var before := steps + [Arrive(NewLogo(shop))];
            WritesOver(Run(slots, before + more), Write(r, id)) <==> Overtaken(slots, before, more, Logo(shop))
  {
    var s0, arrive := Run(slots, steps), Arrive(NewLogo(shop));
    var r, former := s0.next, s0.slots[Logo(shop)];
    var before := steps + [arrive];
    RunKeeps(slots, steps);
    assert before[..|steps|] == steps;
    ArrivalStands(s0, shop);
    var t := Next(s0, arrive);
    assert Run(slots, before) == t;
    hide Inv, Next, Run, Overtaken;
    RunStands(slots, before, more, r, Logo(shop), former);
    hide Grown;
    var s := Run(slots, before + more);
    assert s.requests[r].phase == Seen(former);
    assert Newer(t, s.slots[Logo(shop)]) ==> s.slots[Logo(shop)] != former;
  }
}
