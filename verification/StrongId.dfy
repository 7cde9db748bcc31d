/** Identities and generations (include/crf/strong_id.hpp). Both are 64-bit counters; zero
    means absent. */
module StrongId {

  const WORD64: int := 0x1_0000_0000_0000_0000

  type U64 = x: int | 0 <= x < 0x1_0000_0000_0000_0000

  const MAX_COUNTER: U64 := 0xFFFF_FFFF_FFFF_FFFF

  /** Generation::next and the step of IdAllocator::next: saturating. */
  function Next(value: U64): (next: U64)
    ensures next >= value
    ensures value < MAX_COUNTER ==> next == value + 1
  {
    if value == MAX_COUNTER then value else value + 1
  }

  const INITIAL: U64 := 1

  /** An identity together with the generation it was observed at. */
  datatype Ref = Ref(id: U64, generation: U64) {
    predicate Present() {
      id != 0
    }
  }

  const ABSENT: Ref := Ref(0, 0)

  /** IdAllocator::observe: the counter moves past an identity seen in durable state. */
  function Observe(counter: U64, id: U64): (next: U64)
    ensures next >= counter
    ensures id < MAX_COUNTER ==> next > id
  {
    if id >= counter then Next(id) else counter
  }
}

/** Outcomes of operations that can be refused. */
module Wrappers {
  datatype Option<+T> = None | Some(value: T)

  datatype Result<+T, +E> = Success(value: T) | Failure(error: E)
}
