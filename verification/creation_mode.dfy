/** `MessageCreationMode`: which pipeline stage produced a message. Its name is
    what the message payload records under `mode`. */
module CreationModes {
  import opened Options
  import Enumerations

  datatype CreationMode = FromBuilder | FromTemplate | FromRenderedMessage {

    function Value(): int {
      match this
      case FromBuilder => 0
      case FromTemplate => 1
      case FromRenderedMessage => 2
    }

    /** `ToString()`, which returns `Name`. */
    function Name(): string {
      match this
      case FromBuilder => "FromBuilder"
      case FromTemplate => "FromTemplate"
      case FromRenderedMessage => "FromRenderedMessage"
    }
  }

  /** `MessageCreationMode.All`: every mode, in code order. */
  function All(): (r: seq<CreationMode>)
    ensures |r| == 3
    ensures forall i :: 0 <= i < |r| ==> r[i].Value() == i
    ensures forall m: CreationMode :: r[m.Value()] == m
  {
    [FromBuilder, FromTemplate, FromRenderedMessage]
  }

  /** `MessageCreationMode.FromValue`; `None` stands for the thrown `ArgumentException`. */
  function FromValue(v: int): (r: Option<CreationMode>)
    ensures r.Some? <==> 0 <= v <= 2
    ensures r.Some? ==> r.value.Value() == v
  {
    Enumerations.FirstWithValue(All(), (m: CreationMode) => m.Value(), v)
  }

  lemma FromValueRoundTrip(m: CreationMode)
    ensures FromValue(m.Value()) == Some(m)
    ensures forall n: CreationMode :: n.Value() == m.Value() ==> n == m
  {
  }

  /** The names are pairwise distinct, so the payload's `mode` string
      identifies the creation mode. */
  lemma NamesDistinct(m: CreationMode, n: CreationMode)
    ensures m.Name() == n.Name() ==> m == n
  {
  }
}
