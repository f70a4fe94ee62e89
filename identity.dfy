// Fresh identifiers with collision retry: both classes draw an id from a random
// source and draw again while the id is already a key of their table. The random
// source is injected as the sequence of values it would return.

module Identity {

  /** Some value the source would return is not already taken. */
  predicate HasFresh(candidates: seq<string>, taken: set<string>)
  {
    exists k :: 0 <= k < |candidates| && candidates[k] !in taken
  }

  /** The position of the first candidate that is not taken. */
  function FreshIndex(candidates: seq<string>, taken: set<string>): (k: nat)
    requires HasFresh(candidates, taken)
    ensures k < |candidates| && candidates[k] !in taken
    ensures forall j :: 0 <= j < k ==> candidates[j] in taken
  {
    if candidates[0] !in taken then 0
    else
      assert HasFresh(candidates[1..], taken) by {
        var k :| 0 <= k < |candidates| && candidates[k] !in taken;
        assert candidates[1..][k - 1] == candidates[k];
      }
      1 + FreshIndex(candidates[1..], taken)
  }

  /** The identifier the retry loop settles on. */
  function FirstFresh(candidates: seq<string>, taken: set<string>): string
    requires HasFresh(candidates, taken)
  {
    candidates[FreshIndex(candidates, taken)]
  }

  /** Draws candidates in order until one is not taken. */
  method DrawFreshId(candidates: seq<string>, taken: set<string>) returns (id: string)
    requires HasFresh(candidates, taken)
    ensures id !in taken
    ensures id == FirstFresh(candidates, taken)
  {
    var i := 0;
    id := candidates[0];
    while id in taken
      invariant i <= FreshIndex(candidates, taken)
      invariant id == candidates[i]
      invariant forall j :: 0 <= j < i ==> candidates[j] in taken
      decreases FreshIndex(candidates, taken) - i
    {
      i := i + 1;
      id := candidates[i];
    }
  }

  /** The first fresh candidate is determined by what is taken: a candidate that
      is not taken and follows only taken ones is the one drawn. */
  lemma {:induction false} FirstFreshUnique(candidates: seq<string>, taken: set<string>, k: nat)
    requires k < |candidates| && candidates[k] !in taken
    requires forall j :: 0 <= j < k ==> candidates[j] in taken
    ensures HasFresh(candidates, taken) && FirstFresh(candidates, taken) == candidates[k]
  {
  }
}
