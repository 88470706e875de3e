/** `MessageStatus`: the states of a message's assembly and delivery. */
module MessageStatuses {
  import opened Options
  import Enumerations

  datatype MessageStatus = New | Built | Rendered | Sent | Fault {

    function Value(): int {
      match this
      case New => 0
      case Built => 1
      case Rendered => 2
      case Sent => 3
      case Fault => 4
    }

    function Name(): string {
      match this
      case New => "New"
      case Built => "Built"
      case Rendered => "Rendered"
      case Sent => "Sent"
      case Fault => "Fault"
    }

    /** `IsEndStatus`: true for Sent and for Fault, although the message
        state machine still accepts transitions out of Fault. */
    predicate IsEndStatus() {
      this == Sent || this == Fault
    }
  }

  /** `MessageStatus.All`: every status, in code order. */
  function All(): (r: seq<MessageStatus>)
    ensures |r| == 5
    ensures forall i :: 0 <= i < |r| ==> r[i].Value() == i
    ensures forall s: MessageStatus :: r[s.Value()] == s
  {
    [New, Built, Rendered, Sent, Fault]
  }

  /** `MessageStatus.FromValue`; `None` stands for the thrown `ArgumentException`. */
  function FromValue(v: int): (r: Option<MessageStatus>)
    ensures r.Some? <==> 0 <= v <= 4
    ensures r.Some? ==> r.value.Value() == v
  {
    Enumerations.FirstWithValue(All(), (s: MessageStatus) => s.Value(), v)
  }

  lemma FromValueRoundTrip(s: MessageStatus)
    ensures FromValue(s.Value()) == Some(s)
    ensures forall t: MessageStatus :: t.Value() == s.Value() ==> t == s
  {
  }

  /** Exactly the two statuses Sent and Fault are end statuses. */
  lemma EndStatuses(s: MessageStatus)
    ensures s.IsEndStatus() <==> s.Value() >= 3
  {
  }
}
