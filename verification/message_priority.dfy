/** `MessagePriority`: four priorities whose codes grow as urgency falls. */
module MessagePriorities {
  import opened Options
  import Enumerations

  datatype MessagePriority = Critical | High | Normal | Low {

    function Value(): int {
      match this
      case Critical => 1
      case High => 10
      case Normal => 50
      case Low => 99
    }

    function Name(): string {
      match this
      case Critical => "Critical"
      case High => "High"
      case Normal => "Normal"
      case Low => "Low"
    }
  }

  /** `MessagePriority.All`: every priority, codes strictly increasing. */
  function All(): (r: seq<MessagePriority>)
    ensures |r| == 4
    ensures forall i, j :: 0 <= i < j < |r| ==> r[i].Value() < r[j].Value()
  {
    [Critical, High, Normal, Low]
  }

  /** `MessagePriority.FromValue`; `None` stands for the thrown `ArgumentException`. */
  function FromValue(v: int): (r: Option<MessagePriority>)
    ensures r.Some? <==> v in {1, 10, 50, 99}
    ensures r.Some? ==> r.value.Value() == v
  {
    Enumerations.FirstWithValue(All(), (p: MessagePriority) => p.Value(), v)
  }

  /** `MessagePriority.Default`. */
  function Default(): (p: MessagePriority)
    ensures p.Value() == 50
  {
    Normal
  }

  /** `All` lists every priority. */
  lemma AllIsComplete(p: MessagePriority)
    ensures p in All()
  {
    match p
    case Critical => assert All()[0] == p;
    case High => assert All()[1] == p;
    case Normal => assert All()[2] == p;
    case Low => assert All()[3] == p;
  }

  lemma FromValueRoundTrip(p: MessagePriority)
    ensures FromValue(p.Value()) == Some(p)
    ensures forall q: MessagePriority :: q.Value() == p.Value() ==> q == p
  {
  }
}
