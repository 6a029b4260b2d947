/** `LogService`: the on-screen debug log, an append-only list whose ids are positions. */
module Logging {

  /** `Log`; its colour and timestamp are presentation and not modelled. */
  datatype Log = Log(id: int, text: string)

  /** The ids of the list are its positions. */
  predicate IdsArePositions(logs: seq<Log>)
  {
    forall i :: 0 <= i < |logs| ==> logs[i].id == i
  }

  class LogService {
    var logs: seq<Log>

    predicate Valid()
      reads this
    {
      IdsArePositions(logs)
    }

    constructor ()
      ensures Valid() && logs == []
    {
      logs := [];
    }

    /** `addLog(_:color:)`: one entry at the end, numbered with the old count. */
    method AddLog(text: string)
      requires Valid()
      modifies this
      ensures Valid()
      ensures logs == old(logs) + [Log(|old(logs)|, text)]
    {
      var id := |logs|;
      logs := logs + [Log(id, text)];
    }

    /** `removeLastLog()`: `removeLast` traps on an empty list. */
    method RemoveLastLog()
      requires Valid() && logs != []
      modifies this
      ensures Valid()
      ensures logs == old(logs)[..|old(logs)| - 1]
    {
      logs := logs[..|logs| - 1];
    }

    /** `clear()` */
    method Clear()
      modifies this
      ensures Valid() && logs == []
    {
      logs := [];
    }
  }

  /** The entries after a series of `addLog` calls on an empty list. */
  function Added(texts: seq<string>): (logs: seq<Log>)
    ensures |logs| == |texts|
    ensures IdsArePositions(logs)
    ensures forall i :: 0 <= i < |logs| ==> logs[i].text == texts[i]
  {
    if texts == [] then []
    else
      var prefix := Added(texts[..|texts| - 1]);
      prefix + [Log(|prefix|, texts[|texts| - 1])]
  }

  /** Removing the last entry after adding one gives back the list before it. */
  lemma AddThenRemove(logs: seq<Log>, text: string)
    ensures (logs + [Log(|logs|, text)])[..|logs|] == logs
  {
  }

  /** Appending numbered by the old count keeps the ids positions. */
  lemma {:induction false} AppendKeepsIds(logs: seq<Log>, text: string)
    requires IdsArePositions(logs)
    ensures IdsArePositions(logs + [Log(|logs|, text)])
  {
    var next := logs + [Log(|logs|, text)];
    forall i | 0 <= i < |next|
      ensures next[i].id == i
    {
      if i < |logs| {
        assert next[i] == logs[i];
      }
    }
  }
}
