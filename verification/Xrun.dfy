/** The bookkeeping of lost audio: a worker marks an xrun, and the next callback reports it. */
module Xrun {
  /** `Deliver` is one call of the user's data callback, with what it was given. */
  datatype Event<T> = Mark | Deliver(input: seq<T>, xrun: bool)

  /** An xrun was marked and no callback has run since. */
  ghost predicate Owed<T>(log: seq<Event<T>>) {
    exists j: nat :: j < |log| && log[j].Mark? && forall k :: j < k < |log| ==> !log[k].Deliver?
  }

  /** Every callback reports an xrun exactly when one was marked since the callback before it. */
  ghost predicate Exact<T>(log: seq<Event<T>>) {
    forall i: nat :: i < |log| && log[i].Deliver? ==> (log[i].xrun <==> Owed(log[..i]))
  }

  /** Every delivered block has `n` frames. */
  predicate WholeBlocks<T>(log: seq<Event<T>>, n: nat) {
    forall i: nat :: i < |log| && log[i].Deliver? ==> |log[i].input| == n
  }

  lemma OwedAfter<T>(log: seq<Event<T>>, e: Event<T>)
    ensures Owed(log + [e]) <==> e.Mark?
  {
    assert (log + [e])[|log|] == e;
  }

  lemma ExactAfter<T>(log: seq<Event<T>>, e: Event<T>)
    requires Exact(log)
    requires e.Deliver? ==> (e.xrun <==> Owed(log))
    ensures Exact(log + [e])
  {
    forall i: nat | i < |log + [e]| && (log + [e])[i].Deliver?
      ensures (log + [e])[i].xrun <==> Owed((log + [e])[..i])
    {
      assert (log + [e])[..i] == log[..i];
      assert i == |log| ==> log[..i] == log;
    }
  }
}
