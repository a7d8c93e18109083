/** The delta law of the replication protocol, on the state the repository's own tests use:
    a counter of 64 bits without a sign, changed by amounts of 64 bits with one. */
module DeltaWitness {
  import opened Types

  const WORD: nat := 0x1_0000_0000_0000_0000
  const HALF: nat := 0x8000_0000_0000_0000

  datatype Inner = Inner(counter: nat, tag: string, accumulator: int)

  datatype View = View(counter: nat, tag: string)

  datatype ViewDelta = ViewDelta(counterDelta: int, newLabel: Option<string>)

  datatype Change = Change(counterDelta: int, newLabel: Option<string>, accumulatorDelta: int)

  predicate IsU64(n: int) {
    0 <= n < WORD
  }

  predicate IsI64(n: int) {
    0 <= n + HALF && n < HALF
  }

  /** A cast between the two word types reinterprets the same 64 bits. */
  function AsI64(n: nat): int
    requires IsU64(n)
  {
    if n < HALF then n else n - WORD
  }

  function AsU64(n: int): nat
    requires IsI64(n)
  {
    if 0 <= n then n else n + WORD
  }

  function ProjectView(s: Inner): View {
    View(s.counter, s.tag)
  }

  function ProjectDelta(c: Change): ViewDelta {
    ViewDelta(c.counterDelta, c.newLabel)
  }

  /** Applying a delta in a build with overflow checks: the sum is computed with a sign, and
      a sum outside the range is an overflow, which is None. */
  function ApplyDelta(v: View, d: ViewDelta): Option<View>
    requires IsU64(v.counter)
  {
    var sum := AsI64(v.counter) + d.counterDelta;
    if IsI64(sum) then Some(View(AsU64(sum), if d.newLabel.Some? then d.newLabel.value else v.tag)) else None
  }

  /** The change says what happened to the state. */
  predicate Describes(c: Change, s: Inner, s': Inner) {
    && s'.counter == s.counter + c.counterDelta
    && s'.tag == (if c.newLabel.Some? then c.newLabel.value else s.tag)
  }

  /** With overflow checks the delta law holds of a truly described change exactly when the counter stays on its
      side of the middle of its range: crossing it is an overflow, although the old and the
      new counter both fit their type. */
  lemma DeltaLawIff(s: Inner, c: Change, s': Inner)
    requires IsU64(s.counter) && IsU64(s'.counter) && IsI64(c.counterDelta) && Describes(c, s, s')
    ensures
      ApplyDelta(ProjectView(s), ProjectDelta(c)) == Some(ProjectView(s'))
      <==> (s.counter < HALF <==> s'.counter < HALF)
    ensures ApplyDelta(ProjectView(s), ProjectDelta(c)).None? <==> (s.counter < HALF <==> HALF <= s'.counter)
  {
    assert AsI64(s.counter) + c.counterDelta == s'.counter - if s.counter < HALF then 0 else WORD;
  }

  /** The 64 bits of a sum that is too long for them. */
  function Wrapped(n: int): int
    requires 0 <= n + WORD && n < WORD
  {
    if IsI64(n) then n else if n < 0 then n + WORD else n - WORD
  }

  /** The same in a build without overflow checks: the sum wraps around. */
  function ApplyDeltaWrapping(v: View, d: ViewDelta): View
    requires IsU64(v.counter) && IsI64(d.counterDelta)
  {
    View(AsU64(Wrapped(AsI64(v.counter) + d.counterDelta)), if d.newLabel.Some? then d.newLabel.value else v.tag)
  }

  /** A build without overflow checks meets the delta law everywhere: the casts and the
      wrapping undo each other. */
  lemma WrappingMeetsDeltaLaw(s: Inner, c: Change, s': Inner)
    requires IsU64(s.counter) && IsU64(s'.counter) && IsI64(c.counterDelta) && Describes(c, s, s')
    ensures ApplyDeltaWrapping(ProjectView(s), ProjectDelta(c)) == ProjectView(s')
  {
  }

  function ApplyAll(v: View, deltas: seq<ViewDelta>): Option<View>
    requires IsU64(v.counter)
    decreases |deltas|
  {
    if deltas == [] then Some(v)
    else
      match ApplyDelta(v, deltas[0])
      case None => None
      case Some(next) => ApplyAll(next, deltas[1..])
  }

  function Deltas(changes: seq<Change>): seq<ViewDelta> {
    if changes == [] then [] else [ProjectDelta(changes[0])] + Deltas(changes[1..])
  }

  /** A view that follows a state through truly described changes, all below the middle of the
      counter's range, ends as the view of the state. */
  lemma {:induction false} DeltasFollowState(states: seq<Inner>, changes: seq<Change>)
    requires |states| == |changes| + 1
    requires forall i :: 0 <= i < |states| ==> states[i].counter < HALF
    requires forall i :: 0 <= i < |changes| ==>
               IsI64(changes[i].counterDelta) && Describes(changes[i], states[i], states[i + 1])
    ensures ApplyAll(ProjectView(states[0]), Deltas(changes)) == Some(ProjectView(states[|changes|]))
    decreases |changes|
  {
    if changes != [] {
      DeltaLawIff(states[0], changes[0], states[1]);
      DeltasFollowState(states[1..], changes[1..]);
    }
  }
}
