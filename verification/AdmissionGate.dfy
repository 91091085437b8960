/** Admission state packed into one word (src/internal/admission_gate.rs): a closed bit above a count. */
module AdmissionGate {
  import opened PoolTypes
  import opened Counting

  const CLOSED: nat := 0x8000_0000_0000_0000
  const COUNT_MASK: nat := CLOSED - 1
  const MODULUS: nat := 0x1_0000_0000_0000_0000

  /** A 64-bit machine word. */
  type Word = w: nat | w < MODULUS

  // Bit operations of the source, read as arithmetic.
  predicate IsClosed(w: Word) { w >= CLOSED }

  function CountOf(w: Word): nat { if w >= CLOSED then w - CLOSED else w }

  function SetClosed(w: Word): Word { if w >= CLOSED then w else w + CLOSED }

  function WrappingDecrement(w: Word): Word { if w == 0 then MODULUS - 1 else w - 1 }

  function Pack(closed: bool, count: nat): Word
    requires count <= COUNT_MASK
  {
    (if closed then CLOSED else 0) + count
  }

  // The arithmetic reading is the bitwise one.
  lemma ClosedBit(w: bv64)
    ensures w & 0x8000_0000_0000_0000 != 0 <==> w >= 0x8000_0000_0000_0000
  {
  }

  lemma CountBits(w: bv64)
    ensures w < 0x8000_0000_0000_0000 ==> w & 0x7fff_ffff_ffff_ffff == w
    ensures w >= 0x8000_0000_0000_0000 ==> w & 0x7fff_ffff_ffff_ffff == w - 0x8000_0000_0000_0000
  {
  }

  lemma ClosingBits(w: bv64)
    ensures w < 0x8000_0000_0000_0000 ==> w | 0x8000_0000_0000_0000 == w + 0x8000_0000_0000_0000
    ensures w >= 0x8000_0000_0000_0000 ==> w | 0x8000_0000_0000_0000 == w
  {
  }

  lemma PackReads(closed: bool, count: nat)
    requires count <= COUNT_MASK
    ensures IsClosed(Pack(closed, count)) == closed && CountOf(Pack(closed, count)) == count
    ensures SetClosed(Pack(closed, count)) == Pack(true, count)
    ensures count < COUNT_MASK ==> Pack(closed, count) + 1 == Pack(closed, count + 1)
    ensures count > 0 ==> WrappingDecrement(Pack(closed, count)) == Pack(closed, count - 1)
  {
  }

  // ----- one call among others

  datatype Admission = Entered | TurnedAway | Overflow

  /** The outcome of `try_enter` and the word it leaves, when it loads `word` and other threads leave `others[k]`
      behind just before its k-th compare-exchange; `None` is a spurious failure of the weak exchange. */
  function TryEnterOn(word: Word, others: seq<Option<Word>>): (r: (Admission, Word))
    ensures r.0.TurnedAway? ==> IsClosed(r.1) && (r.1 == word || Some(r.1) in others)
    ensures r.0.Overflow? ==> !IsClosed(r.1) && CountOf(r.1) == COUNT_MASK
    ensures r.0.Entered? ==>
              !IsClosed(r.1) && CountOf(r.1) > 0 && (r.1 - 1 == word || Some(r.1 - 1) in others)
    decreases |others|
  {
    if IsClosed(word) then (TurnedAway, word)
    else if CountOf(word) == COUNT_MASK then (Overflow, word)
    else if others == [] || others[0] == Some(word) then (Entered, word + 1)
    else TryEnterOn(if others[0].None? then word else others[0].value, others[1..])
  }

  /** The source's object: one atomic word. */
  class AdmissionGate {
    var state: Word

    constructor ()
      ensures state == Pack(false, 0)
    {
      state := 0;
    }

    predicate IsOpen()
      reads this
    {
      !IsClosed(state)
    }

    function InflightCount(): nat
      reads this
    {
      CountOf(state)
    }

    /** The compare-exchange loop; before each exchange the other threads act. */
    method TryEnter(others: seq<Option<Word>>) returns (r: Admission)
      modifies this
      ensures (r, state) == TryEnterOn(old(state), others)
    {
      var current := state;
      var k := 0;
      while true
        invariant 0 <= k <= |others| && state == current
        invariant TryEnterOn(old(state), others) == TryEnterOn(current, others[k..])
        decreases |others| - k
      {
        if IsClosed(current) {
          return TurnedAway;
        }
        if CountOf(current) == COUNT_MASK {
          return Overflow;
        }
        var weak := k < |others| && others[k].None?;
        if k < |others| && others[k].Some? {
          state := others[k].value;
        }
        if !weak && state == current {
          state := current + 1;
          return Entered;
        }
        current := state;
        k := k + 1;
      }
    }

    method Close()
      modifies this
      ensures !IsOpen() && InflightCount() == old(InflightCount())
    {
      state := SetClosed(state);
    }

    /** Callers leave only after having entered, so the count is positive. */
    method Leave() returns (last: bool)
      requires InflightCount() > 0
      modifies this
      ensures IsOpen() == old(IsOpen()) && InflightCount() == old(InflightCount()) - 1
      ensures last <==> InflightCount() == 0
    {
      var previous := state;
      state := WrappingDecrement(state);
      last := CountOf(previous) == 1;
    }
  }

  // ----- all calls interleaved

  datatype Actor = Outside | Trying(current: Word) | Inside | Away(why: Admission) | Left(last: bool)

  /** `closed` records whether anybody has closed the gate. */
  datatype Gates = Gates(word: Word, actors: map<Pid, Actor>, closed: bool)

  datatype Act = Arrive(p: Pid) | Load(p: Pid) | Exchange(p: Pid, weak: bool) | Close | Leave(p: Pid)

  function ExchangeOn(word: Word, current: Word, weak: bool): (r: (Word, Actor)) {
    if IsClosed(current) then (word, Away(TurnedAway))
    else if CountOf(current) == COUNT_MASK then (word, Away(Overflow))
    else if weak || word != current then (word, Trying(word))
    else (current + 1, Inside)
  }

  predicate GateNext(s: Gates, a: Act, t: Gates) {
    match a
    case Arrive(p) => p !in s.actors && t == s.(actors := s.actors[p := Outside])
    case Load(p) => p in s.actors && s.actors[p].Outside? && t == s.(actors := s.actors[p := Trying(s.word)])
    case Exchange(p, weak) =>
      p in s.actors && s.actors[p].Trying?
      && var r := ExchangeOn(s.word, s.actors[p].current, weak);
         t == s.(word := r.0, actors := s.actors[p := r.1])
    case Close => t == s.(word := SetClosed(s.word), closed := true)
    case Leave(p) =>
      p in s.actors && s.actors[p].Inside?
      && t == s.(word := WrappingDecrement(s.word), actors := s.actors[p := Left(CountOf(s.word) == 1)])
  }

  datatype GateRun = GateRun(states: seq<Gates>, acts: seq<Act>)
  {
    ghost predicate Valid() {
      && |states| == |acts| + 1 && states[0] == Gates(0, map[], false)
      && forall i {:trigger acts[i]} :: 0 <= i < |acts| ==> GateNext(states[i], acts[i], states[i + 1])
    }
  }

  predicate IsInside(actor: Actor) { actor.Inside? }

  ghost function InsideCount(s: Gates): nat { HowMany(s.actors, IsInside) }

  /** The word is the closed bit plus the number of threads inside, with no carry or borrow between them. */
  ghost predicate Packed(s: Gates) { InsideCount(s) <= COUNT_MASK && s.word == Pack(s.closed, InsideCount(s)) }

  lemma GateStep(s: Gates, a: Act, t: Gates)
    requires Packed(s) && GateNext(s, a, t)
    ensures Packed(t)
    ensures InsideCount(t) - InsideCount(s)
            == B(a.Exchange? && t.actors[a.p].Inside?) - B(a.Leave?)
    ensures a.Exchange? && t.actors[a.p].Inside? ==> !s.closed
    ensures a.Leave? ==> InsideCount(s) > 0 && t.actors[a.p] == Left(InsideCount(s) == 1)
  {
    PackReads(s.closed, InsideCount(s));
    match a {
      case Arrive(p) => HowManyUpdated(s.actors, p, Outside, IsInside);
      case Load(p) => HowManyUpdated(s.actors, p, Trying(s.word), IsInside);
      case Exchange(p, weak) => HowManyUpdated(s.actors, p, ExchangeOn(s.word, s.actors[p].current, weak).1, IsInside);
      case Close =>
      case Leave(p) =>
        HowManyUpdated(s.actors, p, Left(CountOf(s.word) == 1), IsInside);
        HowManyPositive(s.actors, IsInside, p);
    }
  }

  /** In every interleaving of the compare-exchange loops, closes and leaves. */
  lemma {:induction false} AlwaysPacked(r: GateRun, i: nat)
    requires r.Valid() && i < |r.states|
    ensures Packed(r.states[i])
  {
    if i == 0 {
      HowManyNone<Actor>(IsInside);
    } else {
      AlwaysPacked(r, i - 1);
      assert GateNext(r.states[i - 1], r.acts[i - 1], r.states[i]);
      GateStep(r.states[i - 1], r.acts[i - 1], r.states[i]);
    }
  }

  // ----- refinement

  datatype AbstractGate = AbstractGate(closed: bool, count: nat)

  predicate AbstractNext(g: AbstractGate, a: Act, entered: bool, last: bool, h: AbstractGate) {
    match a
    case Close => h == g.(closed := true)
    case Leave(_) => g.count > 0 && h == g.(count := g.count - 1) && (last <==> h.count == 0)
    case Exchange(_, _) => if entered then !g.closed && h == g.(count := g.count + 1) else h == g
    case _ => h == g
  }

  ghost function Abstract(s: Gates): AbstractGate { AbstractGate(s.closed, InsideCount(s)) }

  /** Every atomic step on the word is a step of the pair (closed, count), or leaves it alone. */
  lemma WordRefinesPair(r: GateRun, i: nat)
    requires r.Valid() && i < |r.acts|
    ensures var s, a, t := r.states[i], r.acts[i], r.states[i + 1];
            && AbstractGate(IsClosed(s.word), CountOf(s.word)) == Abstract(s)
            && AbstractNext(Abstract(s), a, a.Exchange? && t.actors[a.p].Inside?,
                            a.Leave? && t.actors[a.p] == Left(true), Abstract(t))
  {
    AlwaysPacked(r, i);
    assert GateNext(r.states[i], r.acts[i], r.states[i + 1]);
    GateStep(r.states[i], r.acts[i], r.states[i + 1]);
    PackReads(r.states[i].closed, InsideCount(r.states[i]));
  }

  /** Once closed, the gate stays closed and admits nobody. */
  lemma {:induction false} NoEntryAfterClose(r: GateRun, i: nat, k: nat)
    requires r.Valid() && i <= k < |r.states| && r.states[i].closed
    ensures r.states[k].closed && InsideCount(r.states[k]) <= InsideCount(r.states[i])
    ensures forall p :: p in r.states[k].actors && r.states[k].actors[p].Inside? ==>
              p in r.states[i].actors && r.states[i].actors[p].Inside?
  {
    if k > i {
      NoEntryAfterClose(r, i, k - 1);
      AlwaysPacked(r, k - 1);
      assert GateNext(r.states[k - 1], r.acts[k - 1], r.states[k]);
      GateStep(r.states[k - 1], r.acts[k - 1], r.states[k]);
    }
  }

  /** How many leaves between two moments reported to be the last one. */
  ghost function LastLeaves(r: GateRun, i: nat, k: nat): nat
    requires r.Valid() && i <= k < |r.states|
    decreases k
  {
    if k == i then 0
    else
      assert GateNext(r.states[k - 1], r.acts[k - 1], r.states[k]);
      LastLeaves(r, i, k - 1)
      + if r.acts[k - 1].Leave? && r.states[k].actors[r.acts[k - 1].p] == Left(true) then 1 else 0
  }

  /** If entrants remain when the gate is closed, exactly one later leave reports to be the last, namely the one
      that empties it; if none remain, no later leave does. */
  lemma {:induction false} ExactlyOneLastLeave(r: GateRun, i: nat, k: nat)
    requires r.Valid() && i <= k < |r.states| && r.states[i].closed
    ensures LastLeaves(r, i, k) == if InsideCount(r.states[i]) > 0 && InsideCount(r.states[k]) == 0 then 1 else 0
  {
    if k > i {
      ExactlyOneLastLeave(r, i, k - 1);
      NoEntryAfterClose(r, i, k - 1);
      AlwaysPacked(r, k - 1);
      assert GateNext(r.states[k - 1], r.acts[k - 1], r.states[k]);
      GateStep(r.states[k - 1], r.acts[k - 1], r.states[k]);
    }
  }
}
