/** `MessageType`: the channel a sender or template is meant for. */
module MessageTypes {
  import opened Options
  import Enumerations

  datatype MessageType = Text | Email | Notification {

    function Value(): int {
      match this
      case Text => 0
      case Email => 1
      case Notification => 2
    }

    function Name(): string {
      match this
      case Text => "Text"
      case Email => "Email"
      case Notification => "Notification"
    }
  }

  /** `MessageType.All`: every type, in code order (`All[1]` is Email). */
  function All(): (r: seq<MessageType>)
    ensures |r| == 3
    ensures forall i :: 0 <= i < |r| ==> r[i].Value() == i
    ensures forall t: MessageType :: r[t.Value()] == t
  {
    [Text, Email, Notification]
  }

  /** `MessageType.FromValue`; `None` stands for the thrown `ArgumentException`. */
  function FromValue(v: int): (r: Option<MessageType>)
    ensures r.Some? <==> 0 <= v <= 2
    ensures r.Some? ==> r.value.Value() == v
  {
    Enumerations.FirstWithValue(All(), (t: MessageType) => t.Value(), v)
  }

  lemma FromValueRoundTrip(t: MessageType)
    ensures FromValue(t.Value()) == Some(t)
    ensures forall u: MessageType :: u.Value() == t.Value() ==> u == t
  {
  }
}
