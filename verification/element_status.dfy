/** `ElementStatus`: the lifecycle status shared by every configuration entity. */
module ElementStatuses {
  import opened Options
  import Enumerations

  datatype ElementStatus = Enabled | Disabled | Archived {

    function Value(): int {
      match this
      case Enabled => 0
      case Disabled => 1
      case Archived => 2
    }

    function Name(): string {
      match this
      case Enabled => "Enabled"
      case Disabled => "Disabled"
      case Archived => "Archived"
    }
  }

  /** `ElementStatus.All`: every status, in code order. */
  function All(): (r: seq<ElementStatus>)
    ensures |r| == 3
    ensures forall i :: 0 <= i < |r| ==> r[i].Value() == i
    ensures forall s: ElementStatus :: r[s.Value()] == s
  {
    [Enabled, Disabled, Archived]
  }

  /** `ElementStatus.FromValue`; `None` stands for the thrown `ArgumentException`. */
  function FromValue(v: int): (r: Option<ElementStatus>)
    ensures r.Some? <==> 0 <= v <= 2
    ensures r.Some? ==> r.value.Value() == v
  {
    Enumerations.FirstWithValue(All(), (s: ElementStatus) => s.Value(), v)
  }

  /** Distinct statuses have distinct codes, so `FromValue` inverts `Value`. */
  lemma FromValueRoundTrip(s: ElementStatus)
    ensures FromValue(s.Value()) == Some(s)
    ensures forall t: ElementStatus :: t.Value() == s.Value() ==> t == s
  {
  }
}
