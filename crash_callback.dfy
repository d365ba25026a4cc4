/** `CrashCallback`, the callback the crash test installs with
    crSetCrashCallback. CrashRpt calls it at each stage of report
    processing; it asks to be notified of the next stage the first time and
    cancels the rest of the processing every later time. Its function-static
    counter is a field of the object here. */
module CrashCallbacks {

  /** The callback's answers to CrashRpt: CR_CB_NOTIFY_NEXT_STAGE and
      CR_CB_CANCEL. */
  datatype Verdict = NotifyNextStage | Cancel

  /** `counter++ > 0 ? CR_CB_CANCEL : CR_CB_NOTIFY_NEXT_STAGE` on the counter
      value before the increment. */
  function VerdictAt(counter: nat): (v: Verdict)
    ensures v == NotifyNextStage <==> counter == 0
  {
    if counter > 0 then Cancel else NotifyNextStage
  }

  /** The verdicts of k consecutive calls that start at the given counter. */
  function Verdicts(counter: nat, k: nat): (vs: seq<Verdict>)
    ensures |vs| == k
    ensures forall i :: 0 <= i < k ==> vs[i] == VerdictAt(counter + i)
    decreases k
  {
    if k == 0 then [] else [VerdictAt(counter)] + Verdicts(counter + 1, k - 1)
  }

  /** Starting from the initial counter, the first call is the only one that
      asks for the next stage. */
  lemma FirstCallOnly(k: nat)
    ensures forall i :: 0 <= i < k ==>
      (Verdicts(0, k)[i] == NotifyNextStage <==> i == 0)
  {
  }

  /** Once the callback has been called, it never asks for a stage again. */
  lemma CancelsForever(counter: nat, k: nat)
    requires counter > 0
    ensures forall i :: 0 <= i < k ==> Verdicts(counter, k)[i] == Cancel
  {
  }

  /** Calls split anywhere: the calls after the first k1 behave as calls that
      start from the counter the first k1 left behind. */
  lemma {:induction false} VerdictsSplit(counter: nat, k1: nat, k2: nat)
    ensures Verdicts(counter, k1 + k2) == Verdicts(counter, k1) + Verdicts(counter + k1, k2)
    decreases k1
  {
    if k1 > 0 {
      VerdictsSplit(counter + 1, k1 - 1, k2);
      assert Verdicts(counter, k1 + k2) == [VerdictAt(counter)] + Verdicts(counter + 1, k1 - 1 + k2);
    }
  }

  /** The part of CR_CRASH_CALLBACK_INFO the callback writes. */
  class CallbackInfo {
    var continueExecution: bool

    constructor (continueExecution: bool)
      ensures this.continueExecution == continueExecution
    {
      this.continueExecution := continueExecution;
    }
  }

  class CrashCallback {
    /** `static int counter`: the number of calls so far. */
    var counter: nat

    constructor ()
      ensures counter == 0
    {
      counter := 0;
    }

    /** `CrashCallback(pInfo)`: the crashed program never continues, the
        counter grows by one and the verdict depends on the old counter. */
    method Call(info: CallbackInfo) returns (v: Verdict)
      modifies this, info
      ensures !info.continueExecution
      ensures counter == old(counter) + 1
      ensures v == VerdictAt(old(counter))
    {
      info.continueExecution := false;
      var before := counter;
      counter := counter + 1;
      if before > 0 {
        v := Cancel;
      } else {
        v := NotifyNextStage;
      }
    }
  }

  /** CrashRpt calling the installed callback at `k` consecutive stages of
      one report: the answers are exactly `Verdicts` from the counter the
      calls start at. */
  method CallStages(cb: CrashCallback, info: CallbackInfo, k: nat) returns (vs: seq<Verdict>)
    modifies cb, info
    ensures vs == Verdicts(old(cb.counter), k)
    ensures cb.counter == old(cb.counter) + k
    ensures k > 0 ==> !info.continueExecution
  {
    vs := [];
    var i := 0;
    while i < k
      invariant 0 <= i <= k
      invariant cb.counter == old(cb.counter) + i
      invariant vs == Verdicts(old(cb.counter), i)
      invariant i > 0 ==> !info.continueExecution
    {
      var v := cb.Call(info);
      VerdictsSplit(old(cb.counter), i, 1);
      vs := vs + [v];
      i := i + 1;
    }
  }
}
