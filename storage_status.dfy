/**
  The health status of a source or sink (`Status` in
  `src/storage-client/src/client.rs`): its text form, used as a column value of
  the status history relations, and the rule deciding whether a new status
  replaces the previous one.
*/
module StorageStatus {
  import opened Wrappers

  datatype Status = Starting | Running | Paused | Stalled | Ceased | Dropped
  {
    /** `Status::to_str`: the lower-case name of the status. */
    function ToStr(): string
    {
      match this
      case Starting => "starting"
      case Running => "running"
      case Paused => "paused"
      case Stalled => "stalled"
      case Ceased => "ceased"
      case Dropped => "dropped"
    }

    /**
      `Status::superseded_by`: whether `next` is reported after `this`. A dropped
      object stays dropped, a ceased one can only be dropped, and a paused one is
      not marked paused again.
    */
    predicate SupersededBy(next: Status)
    {
      match (this, next)
      case (Dropped, _) => false
      case (_, Dropped) => true
      case (Ceased, _) => false
      case (_, Ceased) => true
      case (Paused, Paused) => false
      case _ => true
    }
  }

  /** `Status::from_str`: the inverse of `to_str`; any other text is rejected with a message. */
  function StatusFromStr(s: string): (r: Result<Status, string>)
    ensures r.Ok? ==> r.value.ToStr() == s
    ensures r.Err? ==> forall st: Status :: st.ToStr() != s
    ensures r.Err? ==> r.error == s + " is not a valid status"
  {
    match s
    case "starting" => Ok(Starting)
    case "running" => Ok(Running)
    case "paused" => Ok(Paused)
    case "stalled" => Ok(Stalled)
    case "ceased" => Ok(Ceased)
    case "dropped" => Ok(Dropped)
    case _ => Err(s + " is not a valid status")
  }

  /** Printing then parsing gives back the status. */
  lemma StatusRoundTrip(st: Status)
    ensures StatusFromStr(st.ToStr()) == Ok(st)
  {
  }

  /** Distinct statuses have distinct names. */
  lemma ToStrInjective(a: Status, b: Status)
    requires a.ToStr() == b.ToStr()
    ensures a == b
  {
    assert StatusFromStr(a.ToStr()) == Ok(a);
    assert StatusFromStr(b.ToStr()) == Ok(b);
  }

  /** The `superseded_by` table, rule by rule. */
  lemma SupersededByRules(prev: Status, next: Status)
    ensures !Dropped.SupersededBy(next)
    ensures prev != Dropped ==> prev.SupersededBy(Dropped)
    ensures Ceased.SupersededBy(next) <==> next == Dropped
    ensures prev != Ceased && prev != Dropped ==> prev.SupersededBy(Ceased)
    ensures !Paused.SupersededBy(Paused)
    ensures prev !in {Dropped, Ceased} && next !in {Dropped, Ceased} && !(prev == Paused && next == Paused)
      ==> prev.SupersededBy(next)
  {
  }

  /**
    Following `superseded_by` from any status, the terminal statuses are never
    left: once `Dropped` nothing replaces it, once `Ceased` only `Dropped` does.
  */
  lemma TerminalStatusesAreSticky(history: seq<Status>)
    requires forall i :: 0 < i < |history| ==> history[i - 1].SupersededBy(history[i])
    ensures forall i :: 0 <= i < |history| - 1 ==> history[i] != Dropped
    ensures forall i :: 0 <= i < |history| - 1 && history[i] == Ceased ==> history[i + 1] == Dropped
    ensures forall i :: 0 <= i < |history| - 2 ==> history[i] != Ceased
  {
    forall i | 0 <= i < |history| - 1 ensures history[i] != Dropped {
      assert history[i].SupersededBy(history[i + 1]);
    }
    forall i | 0 <= i < |history| - 2 ensures history[i] != Ceased {
      assert history[i].SupersededBy(history[i + 1]);
      assert history[i + 1].SupersededBy(history[i + 2]);
    }
  }
}
