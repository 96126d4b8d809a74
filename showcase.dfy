/** The animated grid of src/components/ScanTypesShowcase.tsx: every tick of
    its interval timer lights the next scan-type card, and after the last card
    the animation starts over with the first. */
module ScanTypesShowcase {

  /** A card of the grid (its icon and animation delay are presentation only). */
  datatype ScanTypeCard = ScanTypeCard(name: string, description: string, color: string)

  /** `scanTypes`: six cards. */
  const Cards: seq<ScanTypeCard> := [
    ScanTypeCard("OWASP Top 10", "Industry standard vulnerability scanning", "from-blue-500 to-cyan-500"),
    ScanTypeCard("Authentication", "Session & token security testing", "from-purple-500 to-pink-500"),
    ScanTypeCard("API Security", "REST & GraphQL endpoint testing", "from-green-500 to-emerald-500"),
    ScanTypeCard("SQL Injection", "Database security analysis", "from-orange-500 to-red-500"),
    ScanTypeCard("XSS Protection", "Cross-site scripting detection", "from-indigo-500 to-violet-500"),
    ScanTypeCard("Command Injection", "Shell execution vulnerability checks", "from-rose-500 to-pink-500")]

  /** The states the animation can be in: `[0, 1, ..., n-1]` with at most one index per card. */
  predicate IsCountingPrefix(s: seq<int>) {
    |s| <= |Cards| && forall i :: 0 <= i < |s| ==> s[i] == i
  }

  /** `[0, 1, ..., n-1]`. */
  function Prefix(n: nat): (s: seq<int>)
    ensures |s| == n && forall i :: 0 <= i < n ==> s[i] == i
  {
    seq(n, i => i)
  }

  /** The updater passed to `setActiveScans`: start over with `[0]` once every
      card is lit, otherwise light the next card. */
  function Step(prev: seq<int>): (next: seq<int>)
    ensures IsCountingPrefix(prev) ==> IsCountingPrefix(next) && |next| >= 1
    ensures IsCountingPrefix(prev) ==> |next| == if |prev| == |Cards| then 1 else |prev| + 1
  {
    if |prev| >= |Cards| then [0] else prev + [|prev|]
  }

  /** The state after `ticks` ticks of the timer, starting from `[]`. */
  function StateAfter(ticks: nat): (s: seq<int>)
    ensures IsCountingPrefix(s)
    ensures ticks > 0 ==> |s| >= 1
  {
    if ticks == 0 then [] else Step(StateAfter(ticks - 1))
  }

  /** After t >= 1 ticks exactly `(t - 1) % 6 + 1` cards are lit, in order. */
  lemma {:induction false} StateAfterClosedForm(ticks: nat)
    ensures ticks == 0 ==> StateAfter(ticks) == []
    ensures ticks > 0 ==> StateAfter(ticks) == Prefix((ticks - 1) % |Cards| + 1)
  {
    if ticks > 1 {
      StateAfterClosedForm(ticks - 1);
      var n := (ticks - 2) % |Cards| + 1;
      var prev := StateAfter(ticks - 1);
      assert prev == Prefix(n);
      if n == |Cards| {
        assert (ticks - 1) % |Cards| == 0;
        assert Step(prev) == [0];
      } else {
        assert (ticks - 1) % |Cards| + 1 == n + 1;
        assert Step(prev) == Prefix(n) + [n];
      }
    }
  }

  /** Every reachable state is a counting prefix of at most six indices. */
  lemma ReachableStates(ticks: nat)
    ensures IsCountingPrefix(StateAfter(ticks))
  {
    StateAfterClosedForm(ticks);
  }

  /** From the first tick on, the animation repeats every six ticks. */
  lemma Periodic(ticks: nat)
    requires ticks >= 1
    ensures StateAfter(ticks + |Cards|) == StateAfter(ticks)
  {
    StateAfterClosedForm(ticks);
    StateAfterClosedForm(ticks + |Cards|);
    assert (ticks + |Cards| - 1) % |Cards| == (ticks - 1) % |Cards|;
  }

  /** `isActive` of card `index`. */
  predicate IsActive(activeScans: seq<int>, index: int): (active: bool)
    ensures IsCountingPrefix(activeScans) && 0 <= index ==> (active <==> index < |activeScans|)
  {
    assert IsCountingPrefix(activeScans) && 0 <= index < |activeScans| ==> activeScans[index] == index;
    index in activeScans
  }

  /** `isCompleted` of card `index`. */
  predicate IsCompleted(activeScans: seq<int>, index: int): (completed: bool)
    ensures completed ==> IsActive(activeScans, index)
    ensures IsCountingPrefix(activeScans) && 0 <= index ==> (completed <==> index < |activeScans| - 1)
  {
    IsActive(activeScans, index) && |activeScans| > index + 1
  }

  /** In a reachable state the lit cards are the first ones, and all of them
      but the last are completed. */
  lemma CardFlags(s: seq<int>, index: int)
    requires IsCountingPrefix(s) && 0 <= index < |Cards|
    ensures IsActive(s, index) <==> index < |s|
    ensures IsCompleted(s, index) <==> index < |s| - 1
  {
    if index < |s| {
      assert s[index] == index;
    }
  }

  /** In a non-empty reachable state exactly one card, the last lit one, is
      still scanning (active and not completed). */
  lemma ExactlyOneScanning(s: seq<int>, index: int)
    requires IsCountingPrefix(s) && s != [] && 0 <= index < |Cards|
    ensures IsActive(s, index) && !IsCompleted(s, index) <==> index == |s| - 1
  {
    CardFlags(s, index);
  }

  /** The component's `activeScans` state, advanced by the timer callback. */
  class Showcase {
    var activeScans: seq<int>
    ghost var ticks: nat

    ghost predicate Valid()
      reads this
    {
      activeScans == StateAfter(ticks)
    }

    /** `useState<number[]>([])`. */
    constructor ()
      ensures Valid() && ticks == 0 && activeScans == []
    {
      activeScans := [];
      ticks := 0;
    }

    /** One tick of the 800 ms interval. */
    method Tick()
      requires Valid()
      modifies this
      ensures Valid() && ticks == old(ticks) + 1
      ensures activeScans == Step(old(activeScans))
      ensures IsCountingPrefix(activeScans)
    {
      activeScans := Step(activeScans);
      ticks := ticks + 1;
      ReachableStates(ticks);
    }
  }
}
