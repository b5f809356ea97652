/** A call of a system that is advanced alone, to its end. */
module InstanceAlone {
  import opened Prelude
  import opened InstanceContracts
  import opened InstanceTables
  import opened InstanceEffects
  import opened InstanceProtocol
  import opened InstanceRuns
  import opened InstanceFinish

  lemma {:induction false} ExecFirst(s: System, h: Happening, hs: seq<Happening>)
    ensures Exec(s, [h] + hs) == Exec(After(s, h), hs)
  {
    hide After;
    if hs == [] {
      assert [h] + hs == [h];
      assert DropLast([h]) == [];
    } else {
      ExecFirst(s, h, DropLast(hs));
      assert DropLast([h] + hs) == [h] + DropLast(hs);
    }
  }

  /** The system once call `i` has run to its end. */
  ghost function Ended(s: System, i: nat): System
    requires i < |s.calls|
  {
    var (w, o) := Finish(s.w, s.calls[i]);
    System(w, s.calls[i := Done(o)])
  }

  lemma EndedDone(s: System, i: nat)
    requires i < |s.calls| && s.calls[i].Done?
    ensures Ended(s, i) == s
  {
    hide Finish;
    FinishDone(s.w, s.calls[i].outcome);
    assert s.calls[i := s.calls[i]] == s.calls;
  }

  lemma EndedAfter(s: System, i: nat)
    requires i < |s.calls| && !s.calls[i].Done?
    ensures |After(s, Advance(i)).calls| == |s.calls| && Ended(After(s, Advance(i)), i) == Ended(s, i)
  {
    hide Finish, Step;
    FinishByStep(s.w, s.calls[i]);
  }

  /** Some run of the system does just that. */
  lemma {:induction false} RunAlone(s: System, i: nat) returns (hs: seq<Happening>)
    requires i < |s.calls|
    ensures Exec(s, hs) == Ended(s, i)
    decreases Remaining(s.calls[i])
  {
    hide Ended, Exec, Step, Remaining;
    if s.calls[i].Done? {
      hs := [];
      EndedDone(s, i);
      NoRun(s);
    } else {
      EndedAfter(s, i);
      AdvanceDecreases(s, i);
      var rest := RunAlone(After(s, Advance(i)), i);
      hs := [Advance(i)] + rest;
      ExecFirst(s, Advance(i), rest);
    }
  }

  lemma NoRun(s: System)
    ensures Exec(s, []) == s
  {
  }

  lemma AdvanceDecreases(s: System, i: nat)
    requires i < |s.calls| && !s.calls[i].Done?
    ensures i < |After(s, Advance(i)).calls| && Remaining(After(s, Advance(i)).calls[i]) < Remaining(s.calls[i])
  {
    hide Step, Remaining;
    StepDecreases(s.w, s.calls[i]);
  }
}
