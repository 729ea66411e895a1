/**
 Events of an AR as bits of one word.
 */
module EventBits {
  function Common(events: bv32, event: bv32): bv32 {
    events & event
  }

  function With(events: bv32, event: bv32): bv32 {
    events | event
  }

  function Without(events: bv32, event: bv32): bv32 {
    events & !event
  }

  /** Is one of the events in `event` among `events`? */
  predicate Has(events: bv32, event: bv32) {
    Common(events, event) != 0
  }

  lemma Distributes(a: bv32, b: bv32, c: bv32)
    ensures (a | b) & c == (a & c) | (b & c)
  {
  }

  lemma CommonOfWith(a: bv32, b: bv32, c: bv32)
    ensures Common(With(a, b), c) == With(Common(a, c), Common(b, c))
  {
    Distributes(a, b, c);
  }

  lemma NoneInWith(a: bv32, b: bv32)
    ensures With(a, b) == 0 <==> a == 0 && b == 0
  {
  }

  /** An event that is set is seen by all who look for one of its bits, and by nobody else. */
  lemma WithHas(events: bv32, event: bv32, other: bv32)
    ensures Has(With(events, event), other) <==> Has(events, other) || Has(event, other)
  {
    hide Common, With;
    CommonOfWith(events, event, other);
    NoneInWith(Common(events, other), Common(event, other));
  }

  lemma Cleared(a: bv32, b: bv32)
    ensures (a & !b) & b == 0
  {
  }

  lemma Untouched(a: bv32, b: bv32, c: bv32)
    requires b & c == 0
    ensures (a & !b) & c == a & c
  {
  }

  /** One that is cleared is gone, and those who look for other bits do not notice. */
  lemma WithoutHas(events: bv32, event: bv32, other: bv32)
    ensures !Has(Without(events, event), event)
    ensures !Has(event, other) ==> (Has(Without(events, event), other) <==> Has(events, other))
  {
    Cleared(events, event);
    if !Has(event, other) {
      Untouched(events, event, other);
    }
  }

  lemma NothingHas(event: bv32)
    ensures !Has(0, event)
  {
  }
}
